# Bank statement transaction extractor, modelled in Dafny

`python-scripts/statement-parser.py` turns the text of a bank statement into
transaction records. It goes through every page in order and splits the page's
text on `'\n'`. For each line it runs `re.search` with the pattern

    (\d{2}/\d{2}/\d{2,4})\s+(.*?)\s+(-?\$?[\d,]+\.\d{2})

On a match it appends a record `{date, description, amount}`:

- the date is group 1;
- the description is group 2, passed through `strip()`;
- the amount is group 3, passed through `replace('$', '')`.

When no output path is given, `main` builds one from the input's base name.

The project models these parts:

- `wrappers.dfy` (`Wrappers`): the `Option` type.
- `chars.dfy` (`Chars`): the character classes `\s` and `\d`, and maximal whitespace runs.
- `pattern.dfy` (`TransactionPattern`): a hand-written matcher for the pattern.
  - `Shape(line, m)` says that the positions `m` are a match.
  - `TriedNoLater` is the order in which a backtracking engine tries matches:
    1. the leftmost start;
    2. the longest year (`\d{2,4}` is greedy);
    3. the longest first `\s+` (greedy);
    4. the shortest description (`.*?` is lazy).
  - `Search` returns the first match in that order, as `re.search` does.
- `classifier.dfy` (`Classifier`): the record built from one line, with `strip` and `replace`.
- `extractor.dfy` (`Extractor`): the page and line loops, as a method with loop invariants. It is proved against a specification function, using lemmas about concatenation, order and duplicates.
- `output_path.dfy` (`OutputPath`): the default output name, and the `args.output` update as a method on a class.
- `worked_cases.dfy` (`WorkedCases`): concrete lines and paths, with the exact result the program gives for each.

The page texts are an input `seq<string>`. No PDF library is modelled.

## Model

| member | source | states |
|---|---|---|
| TransactionPattern.Search | python-scripts/statement-parser.py:34-36 | Returns a match exactly when the line contains one. That match precedes every other match in the engine's order: leftmost start, then longest year, then longest first whitespace run, then shortest description. |
| TransactionPattern.Shape | python-scripts/statement-parser.py:34 | The definition of a match: a date, a whitespace run, a newline-free description, a whitespace run, then an amount at given positions of the line. |
| TransactionPattern.ShapeGroupsInOrder | python-scripts/statement-parser.py:34 | The groups of a match lie in the line one after another, in pattern order, and end within the line. |
| TransactionPattern.TriedNoLater | python-scripts/statement-parser.py:34-36 | The definition of the engine's order on matches: earlier start, then longer year, then longer first `\s+`, then shorter description. |
| TransactionPattern.TriedNoLaterTotal | python-scripts/statement-parser.py:34-36 | Any two matches are ordered one way or the other. |
| TransactionPattern.TriedNoLaterTransitive | python-scripts/statement-parser.py:34-36 | The order is transitive. |
| TransactionPattern.SearchFrom | python-scripts/statement-parser.py:36 | From start s on: the result is a match starting at s or later, and it precedes every such match in the engine's order. |
| TransactionPattern.SearchDate | python-scripts/statement-parser.py:34 | At one start, years of 4, then 3, then 2 digits are tried. The result precedes every match at that start whose date is no longer. |
| TransactionPattern.SearchSpace | python-scripts/statement-parser.py:34 | The greedy first `\s+` is tried from longest to shortest. The result precedes every match whose description starts no later. |
| TransactionPattern.SearchDescription | python-scripts/statement-parser.py:34 | The lazy `.*?` is tried from shortest to longest. The result has the shortest description end among the matches with the given prefix. |
| TransactionPattern.MatchAmount | python-scripts/statement-parser.py:34 | An amount at a given position is matched in at most one way. Every way of matching it equals the result. |
| TransactionPattern.AmountFollowsWholeSpaceRun | python-scripts/statement-parser.py:34 | The second `\s+` always takes the whole whitespace run before the amount. |
| TransactionPattern.DescriptionEndsBeforeAmount | python-scripts/statement-parser.py:34 | In every match, the description is followed by a whitespace run, and then by the one amount match at its end. |
| TransactionPattern.ShapeDeterminedByGroups | python-scripts/statement-parser.py:34 | Two matches with the same start, date end, description start and description end are the same match. |
| TransactionPattern.SearchIsFirst | python-scripts/statement-parser.py:34-36 | Take any match in the line. A match is then found, and the given match is either the one found or tried strictly after it. |
| TransactionPattern.SearchReturnsFirst | python-scripts/statement-parser.py:34-36 | A match that no other match precedes is the one `re.search` returns. |
| TransactionPattern.DescriptionEndFollowedBy | python-scripts/statement-parser.py:34 | A description ends at whitespace. It is followed by more whitespace or by the first character of an amount. |
| TransactionPattern.FirstSpaceRun | python-scripts/statement-parser.py:34 | The first `\s+` of a match lies within the whitespace run that follows the date. |
| Classifier.Classify | python-scripts/statement-parser.py:34-49 | Gives a record exactly when the pattern matches. The record's date has 2, 3 or 4 year digits. Its amount is an optional `-`, one or more digits or commas, `.` and two digits, with no `$`. Its description is trimmed. |
| Classifier.ClassifyMatchesIff | python-scripts/statement-parser.py:36-38 | A line gives a record if and only if some match exists. Otherwise the line adds nothing and raises no error. |
| Classifier.ClassifyGroups | python-scripts/statement-parser.py:39-49 | The record's fields are slices of the line at the positions of the first match. The date is group 1 and the description is group 2 unchanged. The amount is group 3 without its one optional `$`. Text before the date and after the cents is dropped. |
| Classifier.RecordAt | python-scripts/statement-parser.py:39-49 | The record built from any match has a date token, an amount token without `$`, and a trimmed description. |
| Classifier.RecordAtGroups | python-scripts/statement-parser.py:39-49 | If a match's description group is trimmed, the record holds the three groups as sliced, minus the `$`. |
| Classifier.DescriptionGroupIsTrimmed | python-scripts/statement-parser.py:34-47 | The description group of the first match has no whitespace at either end. So `strip()` never changes it. |
| Classifier.DateGroupIsDateToken | python-scripts/statement-parser.py:34 | Group 1 is two digits, `/`, two digits, `/`, then 2 to 4 digits. |
| Classifier.AmountGroupIsCleaned | python-scripts/statement-parser.py:34-42 | The raw amount is the sign, then at most one `$`, then the rest. `replace` drops exactly that `$` and keeps the sign and the commas. |
| Classifier.AmountGroupParts | python-scripts/statement-parser.py:34 | The amount group is its sign, its `$` and the rest, one after another. Only the `$` part can hold a `$`. |
| Classifier.AmountGroupIsAmountToken | python-scripts/statement-parser.py:34-42 | Without its `$`, the amount group has the form `-?[\d,]+\.\d\d`. |
| Classifier.CleanedAmountIsAmountToken | python-scripts/statement-parser.py:42 | The amount group of any match, after `replace`, has the form `-?[\d,]+\.\d\d`. |
| Classifier.RawAmountGroup | python-scripts/statement-parser.py:42 | In terms of match positions: the cleaned amount is the sign slice followed by the slice after the `$`. |
| Classifier.Strip | python-scripts/statement-parser.py:47 | The result is trimmed. It is a slice of the input with only whitespace before and after it. |
| Classifier.StripKeepsTrimmed | python-scripts/statement-parser.py:47 | Stripping a trimmed string leaves it unchanged, so `strip` is idempotent. |
| Classifier.RemoveDollar | python-scripts/statement-parser.py:42 | The result holds no `$` and is no longer than the input. |
| Classifier.RemoveDollarAppend | python-scripts/statement-parser.py:42 | Removing `$` distributes over concatenation. |
| Classifier.RemoveDollarWithout | python-scripts/statement-parser.py:42 | On a string without `$`, removing `$` changes nothing. |
| Classifier.RemoveOneDollar | python-scripts/statement-parser.py:42 | From sign + optional `$` + a body without `$`, removing `$` gives sign + body. |
| Extractor.SplitLines | python-scripts/statement-parser.py:27 | Gives at least one piece, and no piece holds a newline. |
| Extractor.JoinSplitLines | python-scripts/statement-parser.py:27 | Joining the pieces with `'\n'` gives back the text. |
| Extractor.SplitJoinLines | python-scripts/statement-parser.py:27 | Splitting the join of newline-free lines gives back the lines. |
| Extractor.IndexOf | python-scripts/statement-parser.py:27 | Returns the first position of the character. |
| Extractor.Listed | python-scripts/statement-parser.py:38-51 | A matching line contributes its one record, and any other line contributes none. |
| Extractor.ExtractTransactions | python-scripts/statement-parser.py:18-53 | The result is the records of the pages, concatenated in page order. |
| Extractor.AppendLineRecords | python-scripts/statement-parser.py:30-51 | The list grows by the records of the page's lines, in line order. |
| Extractor.KeptStep | python-scripts/statement-parser.py:36-51 | One loop step: the record of the next line is appended if it has one, and nothing changes otherwise. |
| Extractor.KeptSnoc | python-scripts/statement-parser.py:30-51 | The records of one more line are the earlier records followed by that line's record. |
| Extractor.PagesKeptSnoc | python-scripts/statement-parser.py:23-30 | The records of one more page are the earlier records followed by that page's records. |
| Extractor.KeptAppend | python-scripts/statement-parser.py:30-51 | The records of two runs of lines are the records of the first run followed by those of the second. |
| Extractor.PagesKeptAppend | python-scripts/statement-parser.py:23-51 | The records of two runs of pages are the records of the first run followed by those of the second. |
| Extractor.DocumentLinesAppend | python-scripts/statement-parser.py:23-27 | The lines of two runs of pages are the lines of each run, in order. |
| Extractor.PagesKeptOfLines | python-scripts/statement-parser.py:23-51 | A document's records are the records of all its lines in order. Page boundaries play no part. |
| Extractor.KeptFiltered | python-scripts/statement-parser.py:30-51 | Record k comes from the k-th matching line, and every matching line gives a record. So the number of records equals the number of matching lines, the order is kept and duplicates stay. |
| Extractor.FilteredBySnoc | python-scripts/statement-parser.py:36-51 | One more line keeps that correspondence. It adds an index exactly when the line matches. |
| OutputPath.LastIndex | python-scripts/statement-parser.py:94 | The last position of a character, or -1 if there is none. |
| OutputPath.Basename | python-scripts/statement-parser.py:94 | The part of the path after its last `/`. It holds no `/`. |
| OutputPath.RootOf | python-scripts/statement-parser.py:94 | `splitext(path)[0]` exactly: wherever splitext cuts (CutsAt), the root is the path up to that `.`. Otherwise the root is the whole path. |
| OutputPath.CutIsLastDot | python-scripts/statement-parser.py:94 | A cut can only be at the last `.`, when it follows the last `/` and a character other than `.` comes between them. |
| OutputPath.RootOfDropsExtension | python-scripts/statement-parser.py:94 | Take a stem with a name after its last `/`, then `.`, then an extension without `.` or `/`. Its root is the stem. |
| OutputPath.RootOfKeepsName | python-scripts/statement-parser.py:94 | Where there is no such cut, as in `.bashrc` or `a.b/c`, the root is the whole path. |
| OutputPath.NoSlashFrom | python-scripts/statement-parser.py:94 | After the start of the name before a cut, no `/` follows. |
| OutputPath.DefaultOutputName | python-scripts/statement-parser.py:93-95 | Ends in `_transactions.csv` and holds no `/`. |
| OutputPath.DefaultOutputNameParts | python-scripts/statement-parser.py:94-95 | The default name is exact in both cases. Where splitext cuts the base name, it is the base name up to that `.`, then `_transactions.csv`. Where it does not cut, it is the whole base name, then `_transactions.csv`. |
| OutputPath.Arguments.UseDefaultOutput | python-scripts/statement-parser.py:93-95 | A missing or empty output path is replaced by the default name. Any other output path stays. |
| WorkedCases.FirstMatchRecord | python-scripts/statement-parser.py:34-49 | A line whose first match is m gives the record of m's groups. |
| WorkedCases.TeaShopRecord | python-scripts/statement-parser.py:34-49 | For "03/14/24  TEA SHOP   $4.50": date "03/14/24", description "TEA SHOP", amount "4.50". The space inside the description stays. |
| WorkedCases.RefundRecord | python-scripts/statement-parser.py:34-49 | For "03/14/24  REFUND  -$10.00": date "03/14/24", description "REFUND", amount "-10.00". |
| WorkedCases.NoDescriptionRecord | python-scripts/statement-parser.py:34 | For "01/01/24  5.00", with two spaces, the description is empty. |
| WorkedCases.OneSpaceNoRecord | python-scripts/statement-parser.py:34-38 | "01/01/24 5.00", with one space, gives no record. |
| WorkedCases.ShortYearRecord | python-scripts/statement-parser.py:34 | A 3-digit year is accepted: "01/01/202 X 1.00" gives date "01/01/202". |
| WorkedCases.ExtraDigitRecord | python-scripts/statement-parser.py:34 | Nothing anchors the end of the amount: "01/01/24 FEE 1.234" gives amount "1.23". |
| WorkedCases.TwoAmountsRecord | python-scripts/statement-parser.py:34-36 | Text before the date is dropped, and the first amount wins. "ID 01/02/24 FEE 1.00 X 2.00" gives "01/02/24", "FEE", "1.00". |
| WorkedCases.FooterNoRecord | python-scripts/statement-parser.py:36-38 | "Page 1 of 2" gives no record. |
| WorkedCases.DuplicatesKept | python-scripts/statement-parser.py:23-51 | A page with the same transaction line twice, and a footer between them, gives two equal records. |
| WorkedCases.RepeatedLineKept | python-scripts/statement-parser.py:23-51 | Take any matching line that occurs twice with a non-matching line between. It gives its record twice. |
| WorkedCases.DefaultNameDropsDirectoryAndExtension | python-scripts/statement-parser.py:93-95 | "/home/me/statement.pdf" gives "statement_transactions.csv". |
| WorkedCases.DefaultNameDropsLastExtensionOnly | python-scripts/statement-parser.py:93-95 | "archive.tar.gz" gives "archive.tar_transactions.csv". |
| WorkedCases.DefaultNameKeepsLeadingDot | python-scripts/statement-parser.py:93-95 | "scans/.hidden" gives ".hidden_transactions.csv". |

## Left out

- Opening the PDF and `page.extract_text()` (:21-24) belong to a foreign library. The page texts are the input instead.
  - `extract_text()` can return `None`, and then `text.split` at :27 raises. This crash is not modelled, because every page given to the model is a string.
  - An empty page `""` gives one empty line and no record.
- `save_to_csv` (:55-76) is left out: CSV quoting and file writing are I/O. Its early return on an empty list (:63-65) writes nothing and is also not modelled.
- Argument parsing, the `os.path.exists` check and every `print` (:80-90, :98, :101-102) are command-line plumbing and are left out.
  - `Arguments` starts from already-parsed values.
  - `--output ""` counts as missing, as `not args.output` does.
- `\s`, `\d` and `str.strip()` are restricted to the classes an ASCII-only pattern (`re.ASCII`) uses:
  - whitespace is space, tab, `\n`, `\r`, form feed and vertical tab;
  - digits are `0` to `9`.

  Python's default classes are larger, even within ASCII. `\x1c` to `\x1f` are whitespace for both `\s` and `str.strip()`, and these four are dropped here. So is all non-ASCII whitespace and all non-ASCII digits.
- `os.path.basename` and `os.path.splitext` are modelled with POSIX behaviour only, with `/` as the separator. Windows paths are not modelled.
- The commented-out pattern at :33 and the unused `datetime` import at :6 are dead code.
- The pattern is compiled again on every line (:34). This costs time but does not change the result, so it is not modelled.
- RemoveDollar: its contract says only that no `$` remains and that the result is no longer than the input. Its exact behaviour is given by RemoveDollarAppend, RemoveDollarWithout and RemoveOneDollar. For matched amounts, AmountGroupIsCleaned gives it as one equation.

## Observations about the code

The model follows the code in each case.

- The help text of `--output` (:83) says the default is the "input filename with .csv extension". The code at :94-95 gives something else: the base name without its extension, then `_transactions.csv`, relative to the current directory. So `/home/me/statement.pdf` gives `statement_transactions.csv` (WorkedCases.DefaultNameDropsDirectoryAndExtension).
- `\d{2,4}` accepts a year of three digits as well as of two or four (WorkedCases.ShortYearRecord).
- `[\d,]+` accepts commas anywhere in the amount, not only as thousands separators, and even commas alone, as in `,.00`.
- `replace('$', '')` would remove every `$`. A matched amount holds at most one `$`, so it removes at most one (Classifier.AmountGroupIsCleaned).
- `page.extract_text()` can return `None` for a page without text. `text.split` at :27 then raises, so such a page makes the run fail rather than contribute nothing. Only a page whose text is the empty string contributes nothing.
- The description group of the first match is always already trimmed (Classifier.DescriptionGroupIsTrimmed). A leading whitespace character would have gone to the greedy first `\s+`. A trailing one would have given a shorter, earlier match of the lazy `.*?`. So `strip()` at :47 never changes the record.
