/**
 * The accumulation loop of `extract_transactions_from_pdf`
 * (python-scripts/statement-parser.py:18-53): for every page in order, split
 * its text on '\n' and append the record of every matching line. The page
 * texts are the input; opening the document is not part of this model.
 */
module Extractor {
  import opened Wrappers
  import opened Classifier

  /** The position of the first c in s. */
  function IndexOf(s: string, c: char): (i: nat)
    requires c in s
    ensures i < |s| && s[i] == c && c !in s[..i]
  {
    if s[0] == c then 0
    else
      assert c in s[1..] by { assert s == [s[0]] + s[1..]; }
      var i := 1 + IndexOf(s[1..], c);
      assert s[..i] == [s[0]] + s[1..][..i - 1];
      i
  }

  /** `text.split('\n')` (:27): the pieces between newlines, empty ones included. */
  function SplitLines(text: string): (lines: seq<string>)
    ensures |lines| > 0
    ensures forall k :: 0 <= k < |lines| ==> '\n' !in lines[k]
    decreases |text|
  {
    if '\n' in text then
      var i := IndexOf(text, '\n');
      [text[..i]] + SplitLines(text[i + 1..])
    else
      [text]
  }

  /** `'\n'.join(lines)`, the inverse of SplitLines. */
  function JoinLines(lines: seq<string>): string
    requires |lines| > 0
  {
    if |lines| == 1 then lines[0] else lines[0] + "\n" + JoinLines(lines[1..])
  }

  lemma {:induction false} JoinSplitLines(text: string)
    ensures JoinLines(SplitLines(text)) == text
    decreases |text|
  {
    if '\n' in text {
      var i := IndexOf(text, '\n');
      JoinSplitLines(text[i + 1..]);
      assert text == text[..i] + "\n" + text[i + 1..];
    }
  }

  lemma {:induction false} SplitJoinLines(lines: seq<string>)
    requires |lines| > 0
    requires forall k :: 0 <= k < |lines| ==> '\n' !in lines[k]
    ensures SplitLines(JoinLines(lines)) == lines
  {
    if |lines| > 1 {
      var text := JoinLines(lines);
      var rest := JoinLines(lines[1..]);
      assert text == lines[0] + "\n" + rest;
      assert text[|lines[0]|] == '\n';
      assert IndexOf(text, '\n') == |lines[0]| by {
        assert text[..|lines[0]|] == lines[0];
      }
      assert text[|lines[0]| + 1..] == rest;
      assert text[..|lines[0]|] == lines[0];
      SplitJoinLines(lines[1..]);
    }
  }

  /** The records an optional record stands for: one or none. */
  function Listed<T>(r: Option<T>): (records: seq<T>)
    ensures |records| == if r.Some? then 1 else 0
    ensures r.Some? ==> records == [r.value]
  {
    match r
    case Some(t) => [t]
    case None => []
  }

  /**
   * The records classify keeps from lines, in line order: one for every line it
   * accepts, none for the others (:36-38, :51).
   */
  function Kept<T>(classify: string -> Option<T>, lines: seq<string>): seq<T> {
    if lines == [] then [] else Kept(classify, lines[..|lines| - 1]) + Listed(classify(lines[|lines| - 1]))
  }

  /** The records classify keeps from a document, page after page, each page split into lines. */
  function PagesKept<T>(classify: string -> Option<T>, pages: seq<string>): seq<T> {
    if pages == [] then [] else PagesKept(classify, pages[..|pages| - 1]) + Kept(classify, SplitLines(pages[|pages| - 1]))
  }

  /** The records of the lines of one page. */
  function LineRecords(lines: seq<string>): seq<Transaction> {
    Kept(Classify, lines)
  }

  /** The records of a document. */
  function DocumentRecords(pages: seq<string>): seq<Transaction> {
    PagesKept(Classify, pages)
  }

  /** The loops at :23-51: `transactions` grows by one record for every matching line. */
  method ExtractTransactions(pages: seq<string>) returns (transactions: seq<Transaction>)
    ensures transactions == DocumentRecords(pages)
  {
    transactions := [];
    for i := 0 to |pages|
      invariant transactions == PagesKept(Classify, pages[..i])
    {
      var lines := SplitLines(pages[i]);
      transactions := AppendLineRecords(transactions, lines);
      PagesKeptSnoc(Classify, pages, i);
    }
    assert pages[..|pages|] == pages;
  }

  /** The inner loop at :30-51, over the lines of one page. */
  method AppendLineRecords(before: seq<Transaction>, lines: seq<string>) returns (transactions: seq<Transaction>)
    ensures transactions == before + LineRecords(lines)
  {
    transactions := before;
    for j := 0 to |lines|
      invariant transactions == before + Kept(Classify, lines[..j])
    {
      var record := Classify(lines[j]);
      KeptStep(Classify, before, transactions, lines, j, record);
      if record.Some? {
        transactions := transactions + [record.value];
      }
    }
    assert lines[..|lines|] == lines;
  }

  /** One more line: the records so far, then the record of that line if it has one. */
  lemma KeptStep<T>(classify: string -> Option<T>, before: seq<T>, records: seq<T>, lines: seq<string>, j: nat, r: Option<T>)
    requires j < |lines| && r == classify(lines[j])
    requires records == before + Kept(classify, lines[..j])
    ensures (if r.Some? then records + [r.value] else records) == before + Kept(classify, lines[..j + 1])
  {
    KeptSnoc(classify, lines, j);
  }

  lemma KeptSnoc<T>(classify: string -> Option<T>, lines: seq<string>, j: nat)
    requires j < |lines|
    ensures Kept(classify, lines[..j + 1]) == Kept(classify, lines[..j]) + Listed(classify(lines[j]))
  {
    assert lines[..j + 1][..j] == lines[..j];
  }

  lemma PagesKeptSnoc<T>(classify: string -> Option<T>, pages: seq<string>, i: nat)
    requires i < |pages|
    ensures PagesKept(classify, pages[..i + 1]) == PagesKept(classify, pages[..i]) + Kept(classify, SplitLines(pages[i]))
  {
    assert pages[..i + 1][..i] == pages[..i];
  }

  /** Keeping distributes over concatenation: the records of two runs of lines are the records of each, in order. */
  lemma {:induction false} KeptAppend<T>(classify: string -> Option<T>, xs: seq<string>, ys: seq<string>)
    ensures Kept(classify, xs + ys) == Kept(classify, xs) + Kept(classify, ys)
    decreases |ys|
  {
    if ys == [] {
      assert xs + ys == xs;
    } else {
      var init := ys[..|ys| - 1];
      assert (xs + ys)[..|xs + ys| - 1] == xs + init;
      KeptAppend(classify, xs, init);
    }
  }

  /** All lines of a document: the lines of every page, page after page. */
  function DocumentLines(pages: seq<string>): seq<string> {
    if pages == [] then [] else DocumentLines(pages[..|pages| - 1]) + SplitLines(pages[|pages| - 1])
  }

  lemma {:induction false} DocumentLinesAppend(xs: seq<string>, ys: seq<string>)
    ensures DocumentLines(xs + ys) == DocumentLines(xs) + DocumentLines(ys)
    decreases |ys|
  {
    if ys == [] {
      assert xs + ys == xs;
    } else {
      var init := ys[..|ys| - 1];
      assert (xs + ys)[..|xs + ys| - 1] == xs + init && (xs + ys)[|xs + ys| - 1] == ys[|ys| - 1];
      DocumentLinesAppend(xs, init);
    }
  }

  /** The same for documents: the records of two runs of pages are the records of each, in order. */
  lemma PagesKeptAppend<T>(classify: string -> Option<T>, xs: seq<string>, ys: seq<string>)
    ensures PagesKept(classify, xs + ys) == PagesKept(classify, xs) + PagesKept(classify, ys)
  {
    PagesKeptOfLines(classify, xs + ys);
    PagesKeptOfLines(classify, xs);
    PagesKeptOfLines(classify, ys);
    DocumentLinesAppend(xs, ys);
    KeptAppend(classify, DocumentLines(xs), DocumentLines(ys));
  }

  /** A document's records are those of its lines; where one page ends and the next begins plays no part. */
  lemma {:induction false} PagesKeptOfLines<T>(classify: string -> Option<T>, pages: seq<string>)
    ensures PagesKept(classify, pages) == Kept(classify, DocumentLines(pages))
    decreases |pages|
  {
    if pages != [] {
      PagesKeptOfLines(classify, pages[..|pages| - 1]);
      KeptAppend(classify, DocumentLines(pages[..|pages| - 1]), SplitLines(pages[|pages| - 1]));
    }
  }

  /** The positions of the lines classify accepts, in increasing order. */
  function Accepted<T>(classify: string -> Option<T>, lines: seq<string>): seq<nat> {
    if lines == [] then []
    else Accepted(classify, lines[..|lines| - 1]) + (if classify(lines[|lines| - 1]).Some? then [|lines| - 1] else [])
  }

  /**
   * records is lines filtered by classify: record k comes from line idx[k], idx
   * is strictly increasing, and it holds every line classify accepts.
   */
  ghost predicate FilteredBy<T>(classify: string -> Option<T>, records: seq<T>, lines: seq<string>, idx: seq<nat>) {
    && |idx| == |records|
    && (forall k :: 0 <= k < |idx| ==> idx[k] < |lines| && classify(lines[idx[k]]) == Some(records[k]))
    && (forall k, l :: 0 <= k < l < |idx| ==> idx[k] < idx[l])
    && (forall j :: 0 <= j < |lines| && classify(lines[j]).Some? ==> j in idx)
  }

  /**
   * The records kept are exactly those of the accepted lines, one per line, in
   * line order, duplicates included; so there are as many records as accepted lines.
   */
  lemma {:induction false} KeptFiltered<T>(classify: string -> Option<T>, lines: seq<string>)
    ensures FilteredBy(classify, Kept(classify, lines), lines, Accepted(classify, lines))
    decreases |lines|
  {
    if lines != [] {
      var init, last := lines[..|lines| - 1], lines[|lines| - 1];
      KeptFiltered(classify, init);
      FilteredBySnoc(classify, Kept(classify, init), init, Accepted(classify, init), last);
      assert init + [last] == lines;
    }
  }

  /** Adding one line keeps FilteredBy, with a new index exactly when the line is accepted. */
  lemma FilteredBySnoc<T>(classify: string -> Option<T>, records: seq<T>, lines: seq<string>, idx: seq<nat>, line: string)
    requires FilteredBy(classify, records, lines, idx)
    ensures FilteredBy(classify, records + Listed(classify(line)), lines + [line],
                       idx + (if classify(line).Some? then [|lines|] else []))
  {
    var lines', idx' := lines + [line], idx + (if classify(line).Some? then [|lines|] else []);
    var records' := records + Listed(classify(line));
    forall k | 0 <= k < |idx'|
      ensures idx'[k] < |lines'| && classify(lines'[idx'[k]]) == Some(records'[k])
    {
      if k < |idx| {
        assert idx'[k] == idx[k] && records'[k] == records[k];
        assert lines'[idx[k]] == lines[idx[k]];
      }
    }
    forall j | 0 <= j < |lines'| && classify(lines'[j]).Some? ensures j in idx' {
      if j < |lines| {
        assert lines'[j] == lines[j];
      }
    }
  }
}
