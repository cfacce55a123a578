/**
 * `print_profiling`: the summary of the applied passes, built from the
 * graph's insertion-ordered timings ledger. Elapsed times are abstract
 * naturals and `fmt` stands for their `%.2f` rendering.
 */
module Profiling {

  /** One ledger entry: a pass label and its elapsed time. */
  type Timings = seq<(string, nat)>

  /** The profiling levels that select the detailed summary. */
  const DetailedLevels: seq<string> := ["basic", "advanced"]

  /** The separator between the rows of the detailed summary. */
  const RowSeparator: string := "\n     "

  predicate IsDigit(c: char) {
    '0' <= c <= '9'
  }

  /** A label with every digit removed (the suffixes that keep labels unique). */
  function StripDigits(s: string): (r: string)
    ensures |r| <= |s|
    ensures forall i :: 0 <= i < |r| ==> !IsDigit(r[i])
    decreases |s|
  {
    if |s| == 0 then ""
    else (if IsDigit(s[0]) then "" else [s[0]]) + StripDigits(s[1..])
  }

  /**
   * The shown label has no digit and keeps every other character of the
   * label as often as it occurs there.
   */
  lemma {:induction false} StripDigitsSpec(s: string)
    ensures forall i :: 0 <= i < |StripDigits(s)| ==> !IsDigit(StripDigits(s)[i])
    ensures forall c :: !IsDigit(c) ==> multiset(StripDigits(s))[c] == multiset(s)[c]
    decreases |s|
  {
    if |s| > 0 {
      StripDigitsSpec(s[1..]);
      assert s == [s[0]] + s[1..];
    }
  }

  /** Stripping digits works character by character, so order is kept. */
  lemma {:induction false} StripDigitsConcat(a: string, b: string)
    ensures StripDigits(a + b) == StripDigits(a) + StripDigits(b)
    decreases |a|
  {
    if |a| == 0 {
      assert a + b == b;
    } else {
      var head := if IsDigit(a[0]) then "" else [a[0]];
      assert (a + b)[0] == a[0];
      assert (a + b)[1..] == a[1..] + b;
      calc {
        StripDigits(a + b);
        head + StripDigits(a[1..] + b);
        { StripDigitsConcat(a[1..], b); }
        head + (StripDigits(a[1..]) + StripDigits(b));
        (head + StripDigits(a[1..])) + StripDigits(b);
        StripDigits(a) + StripDigits(b);
      }
    }
  }

  /** A label without digits is shown as it is. */
  lemma {:induction false} StripDigitsKeepsPlainLabel(s: string)
    requires forall i :: 0 <= i < |s| ==> !IsDigit(s[i])
    ensures StripDigits(s) == s
    decreases |s|
  {
    if |s| > 0 {
      StripDigitsKeepsPlainLabel(s[1..]);
    }
  }

  /** The grand total: the sum of all elapsed times. */
  function Total(timings: Timings): (r: nat)
    ensures forall i :: 0 <= i < |timings| ==> timings[i].1 <= r
    ensures r == 0 <==> forall i :: 0 <= i < |timings| ==> timings[i].1 == 0
    decreases |timings|
  {
    if |timings| == 0 then 0 else timings[0].1 + Total(timings[1..])
  }

  /** The total of a ledger is the totals of its parts added up. */
  lemma {:induction false} TotalConcat(a: Timings, b: Timings)
    ensures Total(a + b) == Total(a) + Total(b)
    decreases |a|
  {
    if |a| == 0 {
      assert a + b == b;
    } else {
      assert (a + b)[1..] == a[1..] + b;
      TotalConcat(a[1..], b);
    }
  }

  /** Recording one more pass raises the total by exactly its elapsed time. */
  lemma TotalAppend(timings: Timings, name: string, elapsed: nat)
    ensures Total(timings + [(name, elapsed)]) == Total(timings) + elapsed
  {
    TotalConcat(timings, [(name, elapsed)]);
  }

  /** `sep.join(parts)`. */
  function Join(sep: string, parts: seq<string>): string
    decreases |parts|
  {
    if |parts| == 0 then ""
    else if |parts| == 1 then parts[0]
    else parts[0] + sep + Join(sep, parts[1..])
  }

  /** Cut a string at every occurrence of `c` (Python's `s.split(c)`). */
  function Split(s: string, c: char): (r: seq<string>)
    ensures |r| > 0
    decreases |s|
  {
    if |s| == 0 then [""]
    else
      var rest := Split(s[1..], c);
      if s[0] == c then [""] + rest else [[s[0]] + rest[0]] + rest[1..]
  }

  /** Every part after the first, each preceded by `pad`. */
  function Padded(pad: string, parts: seq<string>): (r: seq<string>)
    ensures |r| == |parts|
    ensures forall i :: 0 <= i < |parts| ==> r[i] == pad + parts[i]
    decreases |parts|
  {
    if |parts| == 0 then [] else [pad + parts[0]] + Padded(pad, parts[1..])
  }

  /** Padding with nothing leaves the parts as they are. */
  lemma {:induction false} PaddedWithNothing(parts: seq<string>)
    ensures Padded("", parts) == parts
    decreases |parts|
  {
    if |parts| > 0 {
      PaddedWithNothing(parts[1..]);
      assert "" + parts[0] == parts[0];
      assert parts == [parts[0]] + parts[1..];
    }
  }

  /** Splitting a string free of `c` followed by a tail extends the tail's first piece. */
  lemma {:induction false} SplitPrefix(x: string, tail: string, c: char)
    requires c !in x
    ensures Split(x + tail, c) == [x + Split(tail, c)[0]] + Split(tail, c)[1..]
    decreases |x|
  {
    if |x| == 0 {
      var t := Split(tail, c);
      assert x + tail == tail && x + t[0] == t[0];
      assert t == [t[0]] + t[1..];
    } else {
      var rest := Split(x[1..] + tail, c);
      var t := Split(tail, c);
      assert (x + tail)[0] == x[0] && x[0] != c;
      assert (x + tail)[1..] == x[1..] + tail;
      SplitPrefix(x[1..], tail, c);
      assert rest[0] == x[1..] + t[0] && rest[1..] == t[1..];
      assert [x[0]] + (x[1..] + t[0]) == x + t[0];
    }
  }

  /**
   * Joining with a separator made of `c` and a padding free of `c`, then
   * splitting at `c`, gives back the parts, every part but the first
   * preceded by the padding.
   */
  lemma {:induction false} SplitJoin(parts: seq<string>, c: char, pad: string)
    requires |parts| > 0
    requires c !in pad
    requires forall i :: 0 <= i < |parts| ==> c !in parts[i]
    ensures Split(Join([c] + pad, parts), c) == [parts[0]] + Padded(pad, parts[1..])
    decreases |parts|
  {
    if |parts| == 1 {
      SplitPrefix(parts[0], "", c);
      assert parts[0] + "" == parts[0];
    } else {
      var rest := Join([c] + pad, parts[1..]);
      SplitJoin(parts[1..], c, pad);
      assert Join([c] + pad, parts) == parts[0] + ([c] + (pad + rest));
      SplitPrefix(parts[0], [c] + (pad + rest), c);
      assert ([c] + (pad + rest))[1..] == pad + rest;
      SplitPrefix(pad, rest, c);
      assert parts[0] + "" == parts[0];
      assert parts[1..][1..] == parts[2..];
    }
  }

  /** One row of the detailed summary. */
  function Row(name: string, elapsed: string): string {
    name + " (elapsed: " + elapsed + " s)"
  }

  /** One row per ledger entry, in order, each with the digits of its label removed. */
  function DetailedRows(timings: Timings, fmt: nat -> string): (rows: seq<string>)
    ensures |rows| == |timings|
    ensures forall i :: 0 <= i < |timings| ==> rows[i] == Row(StripDigits(timings[i].0), fmt(timings[i].1))
    decreases |timings|
  {
    if |timings| == 0 then []
    else [Row(StripDigits(timings[0].0), fmt(timings[0].1))] + DetailedRows(timings[1..], fmt)
  }

  /** The pass labels, in order. */
  function Labels(timings: Timings): (labels: seq<string>)
    ensures |labels| == |timings|
    ensures forall i :: 0 <= i < |timings| ==> labels[i] == timings[i].0
    decreases |timings|
  {
    if |timings| == 0 then [] else [timings[0].0] + Labels(timings[1..])
  }

  /** The closing line of the detailed summary. */
  function TotalLine(timings: Timings, fmt: nat -> string): string {
    "[Total elapsed: " + fmt(Total(timings)) + " s]"
  }

  /** The labels of the terse summary, separated by commas. */
  function PassList(timings: Timings): string {
    Join(",", Labels(timings))
  }

  /** The message `print_profiling` sends to the log. */
  function Summary(timings: Timings, profiling: string, fmt: nat -> string): (r: string)
    ensures profiling in DetailedLevels ==>
      exists rows :: r == rows + RowSeparator + TotalLine(timings, fmt)
    ensures profiling !in DetailedLevels ==>
      r == "passes: " + PassList(timings) + " (elapsed " + fmt(Total(timings)) + " s)"
  {
    if profiling in DetailedLevels then
      Join(RowSeparator, DetailedRows(timings, fmt)) + RowSeparator + TotalLine(timings, fmt)
    else
      "passes: " + PassList(timings) + " (elapsed " + fmt(Total(timings)) + " s)"
  }

  /** Joining one more part adds the separator and the part at the end. */
  lemma {:induction false} JoinAppend(sep: string, parts: seq<string>, last: string)
    requires |parts| > 0
    ensures Join(sep, parts + [last]) == Join(sep, parts) + sep + last
    decreases |parts|
  {
    if |parts| > 1 {
      assert (parts + [last])[1..] == parts[1..] + [last];
      JoinAppend(sep, parts[1..], last);
    }
  }

  /** A row holds a line break only if its label or its time does. */
  lemma RowWithoutBreak(name: string, elapsed: string)
    requires '\n' !in name && '\n' !in elapsed
    ensures '\n' !in Row(StripDigits(name), elapsed)
  {
    StripDigitsSpec(name);
    assert multiset(StripDigits(name))['\n'] == multiset(name)['\n'] == 0;
    assert '\n' !in " (elapsed: " && '\n' !in " s)";
  }

  /**
   * The detailed summary has one line per ledger entry, in order, showing
   * its label without digits and its time, then one line with the total of
   * all times (when neither labels nor rendered times contain line breaks).
   */
  lemma DetailedSummaryLines(timings: Timings, profiling: string, fmt: nat -> string)
    requires profiling in DetailedLevels && |timings| > 0
    requires forall i :: 0 <= i < |timings| ==> '\n' !in timings[i].0 && '\n' !in fmt(timings[i].1)
    requires '\n' !in fmt(Total(timings))
    ensures var lines := Split(Summary(timings, profiling, fmt), '\n');
      && |lines| == |timings| + 1
      && lines[0] == Row(StripDigits(timings[0].0), fmt(timings[0].1))
      && (forall i :: 1 <= i < |timings| ==>
            lines[i] == "     " + Row(StripDigits(timings[i].0), fmt(timings[i].1)))
      && lines[|timings|] == "     " + TotalLine(timings, fmt)
  {
    var rows := DetailedRows(timings, fmt);
    var parts := rows + [TotalLine(timings, fmt)];
    DetailedSummaryIsJoin(timings, profiling, fmt);
    assert RowSeparator == ['\n'] + "     ";
    DetailedPartsWithoutBreaks(timings, fmt);
    SplitJoin(parts, '\n', "     ");
    var lines := Padded("     ", parts[1..]);
    assert forall i :: 1 <= i < |timings| ==> lines[i - 1] == "     " + rows[i];
  }

  /** The detailed summary joins the rows and the total line with the row separator. */
  lemma DetailedSummaryIsJoin(timings: Timings, profiling: string, fmt: nat -> string)
    requires profiling in DetailedLevels && |timings| > 0
    ensures Summary(timings, profiling, fmt)
         == Join(RowSeparator, DetailedRows(timings, fmt) + [TotalLine(timings, fmt)])
  {
    JoinAppend(RowSeparator, DetailedRows(timings, fmt), TotalLine(timings, fmt));
  }

  /** No row and not the total line holds a line break. */
  lemma DetailedPartsWithoutBreaks(timings: Timings, fmt: nat -> string)
    requires forall i :: 0 <= i < |timings| ==> '\n' !in timings[i].0 && '\n' !in fmt(timings[i].1)
    requires '\n' !in fmt(Total(timings))
    ensures var parts := DetailedRows(timings, fmt) + [TotalLine(timings, fmt)];
      forall i :: 0 <= i < |parts| ==> '\n' !in parts[i]
  {
    var rows := DetailedRows(timings, fmt);
    var parts := rows + [TotalLine(timings, fmt)];
    assert '\n' !in TotalLine(timings, fmt) by {
      assert '\n' !in "[Total elapsed: " && '\n' !in " s]";
    }
    forall i | 0 <= i < |parts| ensures '\n' !in parts[i] {
      if i < |rows| {
        RowWithoutBreak(timings[i].0, fmt(timings[i].1));
      }
    }
  }

  /**
   * The terse summary lists the pass labels separated by commas: cutting the
   * list at the commas gives the labels back (when no label holds a comma).
   */
  lemma TerseSummaryLabels(timings: Timings)
    requires |timings| > 0
    requires forall i :: 0 <= i < |timings| ==> ',' !in timings[i].0
    ensures Split(PassList(timings), ',') == Labels(timings)
  {
    var labels := Labels(timings);
    assert [','] + "" == ",";
    SplitJoin(labels, ',', "");
    PaddedWithNothing(labels[1..]);
    assert labels == [labels[0]] + labels[1..];
  }

  /** With no pass run, both summaries report only the zero total. */
  lemma EmptyLedgerSummary(profiling: string, fmt: nat -> string)
    ensures Summary([], profiling, fmt)
         == if profiling in DetailedLevels then RowSeparator + "[Total elapsed: " + fmt(0) + " s]"
            else "passes:  (elapsed " + fmt(0) + " s)"
  {
  }
}
