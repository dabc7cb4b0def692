/**
 * A hand-written matcher for the transaction pattern of
 * python-scripts/statement-parser.py,
 *
 *     (\d{2}/\d{2}/\d{2,4})\s+(.*?)\s+(-?\$?[\d,]+\.\d{2})
 *
 * applied with `re.search`: the match is looked for at every start position,
 * leftmost first, and at one start the alternatives are tried in the order of
 * a backtracking engine (greedy `\d{2,4}` and `\s+`, lazy `.*?`).
 *
 * `Shape` says what a match is; `Search` returns the one `re.search` returns.
 */
module TransactionPattern {
  import opened Wrappers
  import opened Chars

  /** The class `[\d,]`. */
  predicate IsAmountChar(c: char) {
    IsDigit(c) || c == ','
  }

  predicate DigitSpan(s: string, i: nat, j: nat) {
    i <= j <= |s| && forall k :: i <= k < j ==> IsDigit(s[k])
  }

  predicate AmountCharSpan(s: string, i: nat, j: nat) {
    i <= j <= |s| && forall k :: i <= k < j ==> IsAmountChar(s[k])
  }

  /** `.` does not match a newline. */
  predicate NoNewline(s: string, i: nat, j: nat) {
    i <= j <= |s| && forall k :: i <= k < j ==> s[k] != '\n'
  }

  /**
   * The positions of one match in a line:
   *   line[start..dateEnd]            group 1, the date
   *   line[dateEnd..descStart]        the first `\s+`
   *   line[descStart..descEnd]        group 2, the description
   *   line[descEnd..amountStart]      the second `\s+`
   *   line[amountStart..End()]        group 3, the amount, made of
   *     line[amountStart..signEnd]    `-?`
   *     line[signEnd..dollarEnd]      `\$?`
   *     line[dollarEnd..point]        `[\d,]+`
   *     line[point..End()]            `\.\d{2}`
   */
  datatype Match = Match(start: nat, dateEnd: nat, descStart: nat, descEnd: nat,
                         amountStart: nat, signEnd: nat, dollarEnd: nat, point: nat)
  {
    function End(): nat { point + 3 }
  }

  /** `\d{2}/\d{2}/\d{2,4}` matches line[s..d]. */
  predicate DateAt(line: string, s: nat, d: nat) {
    s + 8 <= d <= s + 10 && d <= |line| &&
    IsDigit(line[s]) && IsDigit(line[s + 1]) && line[s + 2] == '/' &&
    IsDigit(line[s + 3]) && IsDigit(line[s + 4]) && line[s + 5] == '/' &&
    DigitSpan(line, s + 6, d)
  }

  /** `-?\$?[\d,]+\.\d{2}` matches line[q..c + 3], with the sign ending at a and the `$` at b. */
  predicate AmountAt(line: string, q: nat, a: nat, b: nat, c: nat) {
    q <= a <= b < c && c + 3 <= |line| &&
    (a == q || (a == q + 1 && line[q] == '-')) &&
    (b == a || (b == a + 1 && line[a] == '$')) &&
    AmountCharSpan(line, b, c) &&
    line[c] == '.' && IsDigit(line[c + 1]) && IsDigit(line[c + 2])
  }

  /** m is a way for the whole pattern to match inside line. */
  predicate Shape(line: string, m: Match) {
    DateAt(line, m.start, m.dateEnd) &&
    m.dateEnd < m.descStart && SpaceSpan(line, m.dateEnd, m.descStart) &&
    NoNewline(line, m.descStart, m.descEnd) &&
    m.descEnd < m.amountStart && SpaceSpan(line, m.descEnd, m.amountStart) &&
    AmountAt(line, m.amountStart, m.signEnd, m.dollarEnd, m.point)
  }

  /** The groups of a match lie in the line one after another, in pattern order. */
  lemma ShapeGroupsInOrder(line: string, m: Match)
    requires Shape(line, m)
    ensures m.start + 8 <= m.dateEnd < m.descStart <= m.descEnd < m.amountStart
    ensures m.amountStart <= m.signEnd <= m.dollarEnd < m.point && m.End() <= |line|
  {
  }

  /**
   * The backtracking engine tries m no later than n: an earlier start, then a
   * longer year (greedy `\d{2,4}`), then a longer first `\s+` (greedy), then a
   * shorter description (lazy `.*?`). The rest of a match is fixed by these
   * four positions (ShapeDeterminedByGroups).
   */
  predicate TriedNoLater(m: Match, n: Match) {
    m.start < n.start ||
    (m.start == n.start &&
      (m.dateEnd > n.dateEnd ||
      (m.dateEnd == n.dateEnd &&
        (m.descStart > n.descStart ||
        (m.descStart == n.descStart && m.descEnd <= n.descEnd)))))
  }

  /** Any two matches are tried in some order. */
  lemma TriedNoLaterTotal(m: Match, n: Match)
    ensures TriedNoLater(m, n) || TriedNoLater(n, m)
  {
  }

  lemma TriedNoLaterTransitive(m: Match, n: Match, o: Match)
    requires TriedNoLater(m, n) && TriedNoLater(n, o)
    ensures TriedNoLater(m, o)
  {
  }

  /** The end of the longest `[\d,]` run that starts at i. */
  function AmountCharsEnd(s: string, i: nat): (j: nat)
    requires i <= |s|
    ensures AmountCharSpan(s, i, j)
    ensures j == |s| || !IsAmountChar(s[j])
    decreases |s| - i
  {
    if i < |s| && IsAmountChar(s[i]) then AmountCharsEnd(s, i + 1) else i
  }

  /**
   * The amount group at q. `-?` and `\$?` take their character whenever it is
   * there (without it `[\d,]+` cannot start), and `[\d,]+` must stop right
   * before the `.`, so there is at most one way to match.
   */
  function MatchAmount(line: string, q: nat): (r: Option<(nat, nat, nat)>)
    requires q <= |line|
    ensures r.Some? ==> AmountAt(line, q, r.value.0, r.value.1, r.value.2)
    ensures forall a: nat, b: nat, c: nat :: AmountAt(line, q, a, b, c) ==> r == Some((a, b, c))
  {
    var a := if q < |line| && line[q] == '-' then q + 1 else q;
    var b := if a < |line| && line[a] == '$' then a + 1 else a;
    var c := AmountCharsEnd(line, b);
    if b < c && c + 3 <= |line| && line[c] == '.' && IsDigit(line[c + 1]) && IsDigit(line[c + 2])
    then Some((a, b, c))
    else None
  }

  /** An amount never starts with whitespace, so the second `\s+` is as long as it can be. */
  lemma AmountFollowsWholeSpaceRun(line: string, p: nat, q: nat, a: nat, b: nat, c: nat)
    requires SpaceSpan(line, p, q) && AmountAt(line, q, a, b, c)
    ensures q == SpaceEnd(line, p)
  {
    assert IsAmountChar(line[b]);
    assert !IsSpace(line[q]);
    assert q <= SpaceEnd(line, p);
  }

  /** Where a description ends, the second `\s+` and then an amount follow, in the only way they can. */
  lemma DescriptionEndsBeforeAmount(line: string)
    ensures forall n :: Shape(line, n) ==>
      n.descEnd < |line| && IsSpace(line[n.descEnd]) && SpaceEnd(line, n.descEnd) == n.amountStart &&
      MatchAmount(line, n.amountStart) == Some((n.signEnd, n.dollarEnd, n.point))
  {
    forall n | Shape(line, n)
      ensures n.descEnd < |line| && IsSpace(line[n.descEnd]) && SpaceEnd(line, n.descEnd) == n.amountStart
    {
      AmountFollowsWholeSpaceRun(line, n.descEnd, n.amountStart, n.signEnd, n.dollarEnd, n.point);
    }
  }

  /**
   * The first match with the given start, date end and description start whose
   * description ends at p or later: the lazy `.*?` tries p, p + 1, ...
   */
  function SearchDescription(line: string, s: nat, d: nat, e: nat, p: nat): (r: Option<Match>)
    requires DateAt(line, s, d) && d < e && SpaceSpan(line, d, e) && NoNewline(line, e, p)
    ensures r.Some? ==> Shape(line, r.value) && r.value.start == s && r.value.dateEnd == d &&
                        r.value.descStart == e && p <= r.value.descEnd
    ensures forall n :: Shape(line, n) && n.start == s && n.dateEnd == d && n.descStart == e && p <= n.descEnd ==>
                        r.Some? && r.value.descEnd <= n.descEnd
    decreases |line| - p
  {
    DescriptionEndsBeforeAmount(line);
    if p == |line| then None
    else
      var q := SpaceEnd(line, p);
      var amount := MatchAmount(line, q);
      if IsSpace(line[p]) && amount.Some? then
        Some(Match(s, d, e, p, q, amount.value.0, amount.value.1, amount.value.2))
      else if line[p] == '\n' then
        None
      else
        SearchDescription(line, s, d, e, p + 1)
  }

  /** The first match with the given start and date end whose first `\s+` ends at e or earlier (greedy `\s+`). */
  function SearchSpace(line: string, s: nat, d: nat, e: nat): (r: Option<Match>)
    requires DateAt(line, s, d) && d < e && SpaceSpan(line, d, e)
    ensures r.Some? ==> Shape(line, r.value) && r.value.start == s && r.value.dateEnd == d && r.value.descStart <= e
    ensures forall n :: Shape(line, n) && n.start == s && n.dateEnd == d && n.descStart <= e ==>
                        r.Some? && TriedNoLater(r.value, n)
    decreases e
  {
    var first := SearchDescription(line, s, d, e, e);
    if first.Some? then first
    else if d + 1 < e then SearchSpace(line, s, d, e - 1)
    else None
  }

  /** The first match at start s whose date ends at d or earlier (greedy `\d{2,4}`: 4, 3, then 2 year digits). */
  function SearchDate(line: string, s: nat, d: nat): (r: Option<Match>)
    requires s + 8 <= d <= s + 10
    ensures r.Some? ==> Shape(line, r.value) && r.value.start == s && r.value.dateEnd <= d
    ensures forall n :: Shape(line, n) && n.start == s && n.dateEnd <= d ==> r.Some? && TriedNoLater(r.value, n)
    decreases d
  {
    FirstSpaceRun(line);
    var first :=
      if DateAt(line, s, d) && d < SpaceEnd(line, d) then SearchSpace(line, s, d, SpaceEnd(line, d)) else None;
    if first.Some? then first
    else if s + 8 < d then SearchDate(line, s, d - 1)
    else None
  }

  /** The first `\s+` of a match lies within the run of whitespace after the date. */
  lemma FirstSpaceRun(line: string)
    ensures forall n :: Shape(line, n) ==> n.dateEnd < SpaceEnd(line, n.dateEnd) && n.descStart <= SpaceEnd(line, n.dateEnd)
  {
  }

  /** The first match starting at s or later. */
  function SearchFrom(line: string, s: nat): (r: Option<Match>)
    requires s <= |line|
    ensures r.Some? ==> Shape(line, r.value) && s <= r.value.start
    ensures forall n :: Shape(line, n) && s <= n.start ==> r.Some? && TriedNoLater(r.value, n)
    decreases |line| - s
  {
    var first := SearchDate(line, s, s + 10);
    if first.Some? then first
    else if s < |line| then SearchFrom(line, s + 1)
    else None
  }

  /**
   * `re.search(pattern, line)`: a match when there is one, and then the one
   * the backtracking engine finds first.
   */
  function Search(line: string): (r: Option<Match>)
    ensures r.Some? ==> Shape(line, r.value)
    ensures forall n :: Shape(line, n) ==> r.Some? && TriedNoLater(r.value, n)
  {
    SearchFrom(line, 0)
  }

  /**
   * The start, the date end, the description start and the description end fix
   * the rest of a match: the second `\s+` and the amount leave no choice.
   */
  lemma ShapeDeterminedByGroups(line: string, m: Match, n: Match)
    requires Shape(line, m) && Shape(line, n)
    requires m.start == n.start && m.dateEnd == n.dateEnd && m.descStart == n.descStart && m.descEnd == n.descEnd
    ensures m == n
  {
    DescriptionEndsBeforeAmount(line);
  }

  /** The match `Search` returns is the only one the engine can return: every other match is tried strictly later. */
  lemma SearchIsFirst(line: string, n: Match)
    requires Shape(line, n)
    ensures Search(line).Some?
    ensures n == Search(line).value || !TriedNoLater(n, Search(line).value)
  {
    var m := Search(line).value;
    if TriedNoLater(n, m) {
      assert n.start == m.start && n.dateEnd == m.dateEnd && n.descStart == m.descStart && n.descEnd == m.descEnd;
      ShapeDeterminedByGroups(line, m, n);
    }
  }

  /** A match that no other match precedes in the engine's order is the one `Search` returns. */
  lemma SearchReturnsFirst(line: string, m: Match)
    requires Shape(line, m)
    requires forall n :: Shape(line, n) && TriedNoLater(n, m) ==>
      n.start == m.start && n.dateEnd == m.dateEnd && n.descStart == m.descStart && n.descEnd == m.descEnd
    ensures Search(line) == Some(m)
  {
    ShapeDeterminedByGroups(line, Search(line).value, m);
  }

  /** A description ends at whitespace that is followed by more whitespace or by the first character of an amount. */
  lemma DescriptionEndFollowedBy(line: string, n: Match)
    requires Shape(line, n)
    ensures n.descEnd + 1 < |line| && IsSpace(line[n.descEnd])
    ensures var c := line[n.descEnd + 1]; IsSpace(c) || c == '-' || c == '$' || IsAmountChar(c)
  {
    assert IsAmountChar(line[n.dollarEnd]);
    if n.amountStart > n.descEnd + 1 {
      assert IsSpace(line[n.descEnd + 1]);
    }
  }
}
