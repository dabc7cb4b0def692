/**
 * The per-line classification of `extract_transactions_from_pdf`
 * (python-scripts/statement-parser.py:34-49): search the line for the
 * transaction pattern and, on a match, build a record from the three groups,
 * with every `$` removed from the amount and the description stripped.
 */
module Classifier {
  import opened Wrappers
  import opened Chars
  import opened TransactionPattern

  /** The dictionary built at :45-49. */
  datatype Transaction = Transaction(date: string, description: string, amount: string)

  /** No whitespace at either end. */
  predicate Trimmed(s: string) {
    s == [] || (!IsSpace(s[0]) && !IsSpace(s[|s| - 1]))
  }

  /** The text of group 1: two digits, `/`, two digits, `/`, then two to four digits. */
  predicate IsDateToken(s: string) {
    8 <= |s| <= 10 &&
    IsDigit(s[0]) && IsDigit(s[1]) && s[2] == '/' && IsDigit(s[3]) && IsDigit(s[4]) && s[5] == '/' &&
    forall i :: 6 <= i < |s| ==> IsDigit(s[i])
  }

  /** A cleaned amount: an optional `-`, one or more digits or commas, `.`, two digits. */
  predicate IsAmountToken(s: string) {
    var b := if |s| > 0 && s[0] == '-' then 1 else 0;
    b + 4 <= |s| &&
    (forall i :: b <= i < |s| - 3 ==> IsAmountChar(s[i])) &&
    s[|s| - 3] == '.' && IsDigit(s[|s| - 2]) && IsDigit(s[|s| - 1])
  }

  /** `str.strip()`: s without its leading and trailing whitespace. */
  function Strip(s: string): (r: string)
    ensures Trimmed(r)
    ensures exists i: nat :: i + |r| <= |s| && r == s[i..i + |r|] && SpaceSpan(s, 0, i) && SpaceSpan(s, i + |r|, |s|)
  {
    var i := SpaceEnd(s, 0);
    var j := SpaceStart(s, i, |s|);
    assert j == i || !IsSpace(s[j - 1]);
    s[i..j]
  }

  /** Stripping leaves a trimmed string as it is; in particular it is idempotent. */
  lemma StripKeepsTrimmed(s: string)
    requires Trimmed(s)
    ensures Strip(s) == s
  {
    if s != [] {
      assert SpaceEnd(s, 0) == 0;
      assert SpaceStart(s, 0, |s|) == |s|;
    }
  }

  /** `str.replace('$', '')`: s with every `$` removed and nothing else changed. */
  function RemoveDollar(s: string): (r: string)
    ensures '$' !in r && |r| <= |s|
    decreases |s|
  {
    if s == [] then []
    else (if s[0] == '$' then [] else [s[0]]) + RemoveDollar(s[1..])
  }

  lemma {:induction false} RemoveDollarAppend(x: string, y: string)
    ensures RemoveDollar(x + y) == RemoveDollar(x) + RemoveDollar(y)
    decreases |x|
  {
    if x != [] {
      assert (x + y)[1..] == x[1..] + y;
      RemoveDollarAppend(x[1..], y);
    } else {
      assert x + y == y;
    }
  }

  /** Removing `$` from a string that has none changes nothing. */
  lemma {:induction false} RemoveDollarWithout(s: string)
    requires '$' !in s
    ensures RemoveDollar(s) == s
    decreases |s|
  {
    if s != [] {
      RemoveDollarWithout(s[1..]);
    }
  }

  /** The record built at :39-49 from the groups of the match m. */
  function RecordAt(line: string, m: Match): (t: Transaction)
    requires Shape(line, m)
    ensures IsDateToken(t.date)
    ensures IsAmountToken(t.amount) && '$' !in t.amount
    ensures Trimmed(t.description)
  {
    var date, amount := line[m.start..m.dateEnd], RemoveDollar(line[m.amountStart..m.point + 3]);
    assert IsDateToken(date) by {
      DateGroupIsDateToken(line, m.start, m.dateEnd);
    }
    CleanedAmountIsAmountToken(line, m);
    Transaction(date, Strip(line[m.descStart..m.descEnd]), amount)
  }

  /**
   * Lines 34-49 for one line: the record of the first match, or no record.
   */
  function Classify(line: string): (r: Option<Transaction>)
    ensures r.Some? <==> Search(line).Some?
    ensures r.Some? ==> IsDateToken(r.value.date)
    ensures r.Some? ==> IsAmountToken(r.value.amount) && '$' !in r.value.amount
    ensures r.Some? ==> Trimmed(r.value.description)
  {
    var found := Search(line);
    if found.None? then None else Some(RecordAt(line, found.value))
  }

  /** A line yields a record exactly when the pattern matches somewhere in it; otherwise it is skipped without error. */
  lemma ClassifyMatchesIff(line: string)
    ensures Classify(line).Some? <==> exists n :: Shape(line, n)
  {
    if Classify(line).Some? {
      assert Shape(line, Search(line).value);
    }
  }

  /** Group 1 is a date token. */
  lemma DateGroupIsDateToken(line: string, s: nat, d: nat)
    requires DateAt(line, s, d)
    ensures IsDateToken(line[s..d])
  {
    var date := line[s..d];
    forall i | 6 <= i < |date| ensures IsDigit(date[i]) {
      assert date[i] == line[s + i];
    }
  }

  /**
   * The raw amount is the sign, then at most one `$`, then digits, commas, `.` and
   * two digits; removing `$` drops exactly that one character.
   */
  lemma AmountGroupIsCleaned(line: string, q: nat, a: nat, b: nat, c: nat)
    requires AmountAt(line, q, a, b, c)
    ensures a == q || line[q..a] == "-"
    ensures b == a || line[a..b] == "$"
    ensures RemoveDollar(line[q..c + 3]) == line[q..a] + line[b..c + 3]
  {
    AmountGroupParts(line, q, a, b, c);
    RemoveOneDollar(line[q..a], line[a..b], line[b..c + 3]);
  }

  /** The amount group is its sign, its `$` and the rest, and only the `$` part holds a `$`. */
  lemma AmountGroupParts(line: string, q: nat, a: nat, b: nat, c: nat)
    requires AmountAt(line, q, a, b, c)
    ensures a == q || line[q..a] == "-"
    ensures b == a || line[a..b] == "$"
    ensures line[q..c + 3] == line[q..a] + line[a..b] + line[b..c + 3]
    ensures '$' !in line[b..c + 3]
  {
    SliceSplit(line, q, a, c + 3);
    SliceSplit(line, a, b, c + 3);
    SignAndDollar(line, q, a, b, c);
    BodyHasNoDollar(line, b, c);
  }

  lemma SignAndDollar(line: string, q: nat, a: nat, b: nat, c: nat)
    requires AmountAt(line, q, a, b, c)
    ensures a == q || line[q..a] == "-"
    ensures b == a || line[a..b] == "$"
  {
    if a != q {
      assert line[q..a] == [line[q]];
    }
    if b != a {
      assert line[a..b] == [line[a]];
    }
  }

  /** Digits, commas, `.` and two digits: no `$`. */
  lemma BodyHasNoDollar(line: string, b: nat, c: nat)
    requires AmountCharSpan(line, b, c) && c + 3 <= |line|
    requires line[c] == '.' && IsDigit(line[c + 1]) && IsDigit(line[c + 2])
    ensures '$' !in line[b..c + 3]
  {
    var body := line[b..c + 3];
    forall k | 0 <= k < |body| ensures body[k] != '$' {
      assert body[k] == line[b + k];
      if b + k < c {
        assert IsAmountChar(line[b + k]);
      }
    }
  }

  lemma SliceSplit(s: string, i: nat, j: nat, k: nat)
    requires i <= j <= k <= |s|
    ensures s[i..k] == s[i..j] + s[j..k]
  {
  }

  lemma RemoveOneDollar(sign: string, dollar: string, body: string)
    requires sign == [] || sign == "-"
    requires dollar == [] || dollar == "$"
    requires '$' !in body
    ensures RemoveDollar(sign + dollar + body) == sign + body
  {
    RemoveDollarAppend(sign + dollar, body);
    RemoveDollarAppend(sign, dollar);
    RemoveDollarWithout(sign);
    RemoveDollarWithout(body);
    assert RemoveDollar(dollar) == [];
  }

  /** Without its `$`, the amount group is an amount token. */
  lemma AmountGroupIsAmountToken(line: string, q: nat, a: nat, b: nat, c: nat)
    requires AmountAt(line, q, a, b, c)
    ensures IsAmountToken(line[q..a] + line[b..c + 3])
  {
    var sign, body := line[q..a], line[b..c + 3];
    var amount := sign + body;
    assert |body| == c + 3 - b;
    assert body[0] == line[b] && IsAmountChar(line[b]);
    assert amount[0] == '-' <==> |sign| == 1;
    forall i | |sign| <= i < |amount| - 3 ensures IsAmountChar(amount[i]) {
      calc {
        amount[i];
        body[i - |sign|];
        line[b + i - |sign|];
      }
    }
    assert amount[|amount| - 3] == body[|body| - 3] == line[c];
    assert amount[|amount| - 2] == body[|body| - 2] == line[c + 1];
    assert amount[|amount| - 1] == body[|body| - 1] == line[c + 2];
  }

  /**
   * The description group of the first match already has no whitespace at
   * either end: one more character in the first `\s+` (tried earlier, being
   * greedy) or one fewer in the lazy `.*?` would give a match found before it.
   * So the `strip()` at :47 never changes the group.
   */
  lemma DescriptionGroupIsTrimmed(line: string)
    requires Search(line).Some?
    ensures Trimmed(line[Search(line).value.descStart..Search(line).value.descEnd])
  {
    var m := Search(line).value;
    if m.descStart < m.descEnd {
      if IsSpace(line[m.descStart]) {
        var n := m.(descStart := m.descStart + 1);
        assert Shape(line, n);
        assert false;
      }
      if IsSpace(line[m.descEnd - 1]) {
        var n := m.(descEnd := m.descEnd - 1);
        assert Shape(line, n);
        assert false;
      }
    }
  }

  /**
   * What a record holds: the date group as matched, the description group
   * itself, and the amount group less its one optional `$`. The groups are the
   * slices of the line between the positions of the first match, so the text
   * before the date and after the cents is dropped.
   */
  lemma ClassifyGroups(line: string)
    requires Search(line).Some?
    ensures var m, t := Search(line).value, Classify(line).value;
      && t.date == line[m.start..m.dateEnd]
      && t.description == line[m.descStart..m.descEnd]
      && t.amount == line[m.amountStart..m.signEnd] + line[m.dollarEnd..m.End()]
      && (m.signEnd == m.dollarEnd || line[m.signEnd..m.dollarEnd] == "$")
  {
    var m := Search(line).value;
    assert Classify(line) == Some(RecordAt(line, m));
    DescriptionGroupIsTrimmed(line);
    RecordAtGroups(line, m);
  }

  /** The fields of the record of a match whose description group is trimmed. */
  lemma RecordAtGroups(line: string, m: Match)
    requires Shape(line, m) && Trimmed(line[m.descStart..m.descEnd])
    ensures var t := RecordAt(line, m);
      && t.date == line[m.start..m.dateEnd]
      && t.description == line[m.descStart..m.descEnd]
      && t.amount == line[m.amountStart..m.signEnd] + line[m.dollarEnd..m.End()]
      && (m.signEnd == m.dollarEnd || line[m.signEnd..m.dollarEnd] == "$")
  {
    var desc, raw := line[m.descStart..m.descEnd], line[m.amountStart..m.point + 3];
    assert RecordAt(line, m) == Transaction(line[m.start..m.dateEnd], Strip(desc), RemoveDollar(raw));
    StripKeepsTrimmed(desc);
    RawAmountGroup(line, m);
  }

  lemma CleanedAmountIsAmountToken(line: string, m: Match)
    requires Shape(line, m)
    ensures IsAmountToken(RemoveDollar(line[m.amountStart..m.point + 3]))
  {
    var q, a, b, c := m.amountStart, m.signEnd, m.dollarEnd, m.point;
    assert AmountAt(line, q, a, b, c);
    AmountGroupIsCleaned(line, q, a, b, c);
    AmountGroupIsAmountToken(line, q, a, b, c);
  }

  lemma RawAmountGroup(line: string, m: Match)
    requires Shape(line, m)
    ensures RemoveDollar(line[m.amountStart..m.point + 3]) == line[m.amountStart..m.signEnd] + line[m.dollarEnd..m.End()]
    ensures m.signEnd == m.dollarEnd || line[m.signEnd..m.dollarEnd] == "$"
  {
    AmountGroupIsCleaned(line, m.amountStart, m.signEnd, m.dollarEnd, m.point);
  }
}
