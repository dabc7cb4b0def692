/**
 * Concrete lines and paths: each lemma proves, of the model, what the
 * program produces for one input.
 *
 * For a line that matches, the proof names the match, shows that it is a
 * match, and rules out every match the engine would try before it (the
 * `...First` helper), which pins down `Search` and hence `Classify`.
 */
module WorkedCases {
  import opened Wrappers
  import opened Chars
  import opened TransactionPattern
  import opened Classifier
  import opened Extractor
  import opened OutputPath

  const TeaShop := "03/14/24  TEA SHOP   $4.50"
  const Refund := "03/14/24  REFUND  -$10.00"
  const NoDescription := "01/01/24  5.00"
  const OneSpace := "01/01/24 5.00"
  const ShortYear := "01/01/202 X 1.00"
  const ExtraDigit := "01/01/24 FEE 1.234"
  const TwoAmounts := "ID 01/02/24 FEE 1.00 X 2.00"

  lemma SliceIs(s: string, i: nat, t: string)
    requires i + |t| <= |s| && forall k :: 0 <= k < |t| ==> s[i + k] == t[k]
    ensures s[i..i + |t|] == t
  {
  }

  /**
   * The record of a line whose first match is m: the three groups at the
   * positions of m, the `$` left out.
   */
  lemma FirstMatchRecord(line: string, m: Match, t: Transaction)
    requires Shape(line, m)
    requires forall n :: Shape(line, n) && TriedNoLater(n, m) ==>
      n.start == m.start && n.dateEnd == m.dateEnd && n.descStart == m.descStart && n.descEnd == m.descEnd
    requires t.date == line[m.start..m.dateEnd] && t.description == line[m.descStart..m.descEnd]
    requires t.amount == line[m.amountStart..m.signEnd] + line[m.dollarEnd..m.End()]
    ensures Classify(line) == Some(t)
  {
    SearchReturnsFirst(line, m);
    ClassifyGroups(line);
  }

  // 03/14/24  TEA SHOP   $4.50

  lemma TeaShopGroups()
    ensures TeaShop[0..8] == "03/14/24" && TeaShop[10..18] == "TEA SHOP"
    ensures TeaShop[21..21] + TeaShop[22..26] == "4.50"
  {
    SliceIs(TeaShop, 0, "03/14/24");
    SliceIs(TeaShop, 10, "TEA SHOP");
    SliceIs(TeaShop, 22, "4.50");
    assert TeaShop[21..21] == [];
  }

  lemma TeaShopShape()
    ensures Shape(TeaShop, Match(0, 8, 10, 18, 21, 21, 22, 23))
  {
  }

  lemma TeaShopWords()
    ensures forall k :: 10 <= k < 18 && k != 13 ==> !IsSpace(TeaShop[k])
  {
  }

  lemma TeaShopDescriptionStart(n: Match)
    requires Shape(TeaShop, n) && TriedNoLater(n, Match(0, 8, 10, 18, 21, 21, 22, 23))
    ensures n.start == 0 && n.dateEnd == 8 && n.descStart == 10
  {
    assert !IsDigit(TeaShop[8]) && !IsSpace(TeaShop[10]);
  }

  lemma TeaShopFirst(n: Match)
    requires Shape(TeaShop, n) && TriedNoLater(n, Match(0, 8, 10, 18, 21, 21, 22, 23))
    ensures n.start == 0 && n.dateEnd == 8 && n.descStart == 10 && n.descEnd == 18
  {
    TeaShopDescriptionStart(n);
    DescriptionEndFollowedBy(TeaShop, n);
    TeaShopWords();
    assert TeaShop[14] == 'S';
  }

  /** The run of spaces before the amount goes to the second `\s+`; the space inside the description stays. */
  lemma TeaShopRecord()
    ensures Classify(TeaShop) == Some(Transaction("03/14/24", "TEA SHOP", "4.50"))
  {
    var m := Match(0, 8, 10, 18, 21, 21, 22, 23);
    TeaShopGroups();
    TeaShopShape();
    forall n | Shape(TeaShop, n) && TriedNoLater(n, m)
      ensures n.start == 0 && n.dateEnd == 8 && n.descStart == 10 && n.descEnd == 18
    {
      TeaShopFirst(n);
    }
    FirstMatchRecord(TeaShop, m, Transaction("03/14/24", "TEA SHOP", "4.50"));
  }

  // 03/14/24  REFUND  -$10.00

  lemma RefundGroups()
    ensures Refund[0..8] == "03/14/24" && Refund[10..16] == "REFUND"
    ensures Refund[18..19] + Refund[20..25] == "-10.00"
  {
    SliceIs(Refund, 0, "03/14/24");
    SliceIs(Refund, 10, "REFUND");
    SliceIs(Refund, 18, "-");
    SliceIs(Refund, 20, "10.00");
    assert "-" + "10.00" == "-10.00";
  }

  lemma RefundShape()
    ensures Shape(Refund, Match(0, 8, 10, 16, 18, 19, 20, 22))
  {
  }

  lemma RefundFirst(n: Match)
    requires Shape(Refund, n) && TriedNoLater(n, Match(0, 8, 10, 16, 18, 19, 20, 22))
    ensures n.start == 0 && n.dateEnd == 8 && n.descStart == 10 && n.descEnd == 16
  {
    assert !IsDigit(Refund[8]) && !IsSpace(Refund[10]);
    assert IsSpace(Refund[n.descEnd]);
    assert forall k :: 10 <= k < 16 ==> !IsSpace(Refund[k]);
  }

  /** The sign stays and the `$` after it goes. */
  lemma RefundRecord()
    ensures Classify(Refund) == Some(Transaction("03/14/24", "REFUND", "-10.00"))
  {
    var m := Match(0, 8, 10, 16, 18, 19, 20, 22);
    RefundGroups();
    RefundShape();
    forall n | Shape(Refund, n) && TriedNoLater(n, m)
      ensures n.start == 0 && n.dateEnd == 8 && n.descStart == 10 && n.descEnd == 16
    {
      RefundFirst(n);
    }
    FirstMatchRecord(Refund, m, Transaction("03/14/24", "REFUND", "-10.00"));
  }

  // 01/01/24  5.00

  lemma NoDescriptionGroups()
    ensures NoDescription[0..8] == "01/01/24" && NoDescription[9..9] == ""
    ensures NoDescription[10..10] + NoDescription[10..14] == "5.00"
  {
    SliceIs(NoDescription, 0, "01/01/24");
    SliceIs(NoDescription, 10, "5.00");
    assert NoDescription[10..10] == [];
  }

  lemma NoDescriptionShape()
    ensures Shape(NoDescription, Match(0, 8, 9, 9, 10, 10, 10, 11))
  {
  }

  lemma NoDescriptionFirst(n: Match)
    requires Shape(NoDescription, n) && TriedNoLater(n, Match(0, 8, 9, 9, 10, 10, 10, 11))
    ensures n.start == 0 && n.dateEnd == 8 && n.descStart == 9 && n.descEnd == 9
  {
    assert !IsDigit(NoDescription[8]) && !IsSpace(NoDescription[10]);
  }

  /** With two spaces the first `\s+` gives one back, and the description is empty. */
  lemma NoDescriptionRecord()
    ensures Classify(NoDescription) == Some(Transaction("01/01/24", "", "5.00"))
  {
    var m := Match(0, 8, 9, 9, 10, 10, 10, 11);
    NoDescriptionGroups();
    NoDescriptionShape();
    forall n | Shape(NoDescription, n) && TriedNoLater(n, m)
      ensures n.start == 0 && n.dateEnd == 8 && n.descStart == 9 && n.descEnd == 9
    {
      NoDescriptionFirst(n);
    }
    FirstMatchRecord(NoDescription, m, Transaction("01/01/24", "", "5.00"));
  }

  /** With one space there is no second `\s+`: no record. */
  lemma OneSpaceNoRecord()
    ensures Classify(OneSpace) == None
  {
  }

  // 01/01/202 X 1.00

  lemma ShortYearGroups()
    ensures ShortYear[0..9] == "01/01/202" && ShortYear[10..11] == "X"
    ensures ShortYear[12..12] + ShortYear[12..16] == "1.00"
  {
    SliceIs(ShortYear, 0, "01/01/202");
    SliceIs(ShortYear, 10, "X");
    SliceIs(ShortYear, 12, "1.00");
    assert ShortYear[12..12] == [];
  }

  lemma ShortYearShape()
    ensures Shape(ShortYear, Match(0, 9, 10, 11, 12, 12, 12, 13))
  {
  }

  lemma ShortYearFirst(n: Match)
    requires Shape(ShortYear, n) && TriedNoLater(n, Match(0, 9, 10, 11, 12, 12, 12, 13))
    ensures n.start == 0 && n.dateEnd == 9 && n.descStart == 10 && n.descEnd == 11
  {
    assert !IsDigit(ShortYear[9]) && !IsSpace(ShortYear[10]);
    assert IsSpace(ShortYear[n.descEnd]);
  }

  /** A three-digit year is accepted. */
  lemma ShortYearRecord()
    ensures Classify(ShortYear) == Some(Transaction("01/01/202", "X", "1.00"))
  {
    var m := Match(0, 9, 10, 11, 12, 12, 12, 13);
    ShortYearGroups();
    ShortYearShape();
    forall n | Shape(ShortYear, n) && TriedNoLater(n, m)
      ensures n.start == 0 && n.dateEnd == 9 && n.descStart == 10 && n.descEnd == 11
    {
      ShortYearFirst(n);
    }
    FirstMatchRecord(ShortYear, m, Transaction("01/01/202", "X", "1.00"));
  }

  // 01/01/24 FEE 1.234

  lemma ExtraDigitGroups()
    ensures ExtraDigit[0..8] == "01/01/24" && ExtraDigit[9..12] == "FEE"
    ensures ExtraDigit[13..13] + ExtraDigit[13..17] == "1.23"
  {
    SliceIs(ExtraDigit, 0, "01/01/24");
    SliceIs(ExtraDigit, 9, "FEE");
    SliceIs(ExtraDigit, 13, "1.23");
    assert ExtraDigit[13..13] == [];
  }

  lemma ExtraDigitShape()
    ensures Shape(ExtraDigit, Match(0, 8, 9, 12, 13, 13, 13, 14))
  {
  }

  lemma ExtraDigitFirst(n: Match)
    requires Shape(ExtraDigit, n) && TriedNoLater(n, Match(0, 8, 9, 12, 13, 13, 13, 14))
    ensures n.start == 0 && n.dateEnd == 8 && n.descStart == 9 && n.descEnd == 12
  {
    assert !IsDigit(ExtraDigit[8]) && !IsSpace(ExtraDigit[9]);
    assert IsSpace(ExtraDigit[n.descEnd]);
    assert forall k :: 9 <= k < 12 ==> !IsSpace(ExtraDigit[k]);
  }

  /** Nothing anchors the end of the amount: a third decimal is dropped. */
  lemma ExtraDigitRecord()
    ensures Classify(ExtraDigit) == Some(Transaction("01/01/24", "FEE", "1.23"))
  {
    var m := Match(0, 8, 9, 12, 13, 13, 13, 14);
    ExtraDigitGroups();
    ExtraDigitShape();
    forall n | Shape(ExtraDigit, n) && TriedNoLater(n, m)
      ensures n.start == 0 && n.dateEnd == 8 && n.descStart == 9 && n.descEnd == 12
    {
      ExtraDigitFirst(n);
    }
    FirstMatchRecord(ExtraDigit, m, Transaction("01/01/24", "FEE", "1.23"));
  }

  // ID 01/02/24 FEE 1.00 X 2.00

  lemma TwoAmountsGroups()
    ensures TwoAmounts[3..11] == "01/02/24" && TwoAmounts[12..15] == "FEE"
    ensures TwoAmounts[16..16] + TwoAmounts[16..20] == "1.00"
  {
    SliceIs(TwoAmounts, 3, "01/02/24");
    SliceIs(TwoAmounts, 12, "FEE");
    SliceIs(TwoAmounts, 16, "1.00");
    assert TwoAmounts[16..16] == [];
  }

  lemma TwoAmountsShape()
    ensures Shape(TwoAmounts, Match(3, 11, 12, 15, 16, 16, 16, 17))
  {
    TwoAmountsDate();
    TwoAmountsAmount();
    assert SpaceSpan(TwoAmounts, 11, 12) && SpaceSpan(TwoAmounts, 15, 16);
  }

  lemma TwoAmountsDate()
    ensures DateAt(TwoAmounts, 3, 11)
  {
    assert TwoAmounts[3..11] == "01/02/24" by { TwoAmountsGroups(); }
    assert DigitSpan(TwoAmounts, 9, 11) by {
      assert IsDigit(TwoAmounts[9]) && IsDigit(TwoAmounts[10]);
    }
  }

  lemma TwoAmountsAmount()
    ensures AmountAt(TwoAmounts, 16, 16, 16, 17)
  {
    assert IsDigit(TwoAmounts[16]) && TwoAmounts[17] == '.' && IsDigit(TwoAmounts[18]) && IsDigit(TwoAmounts[19]);
  }

  lemma TwoAmountsFirst(n: Match)
    requires Shape(TwoAmounts, n) && TriedNoLater(n, Match(3, 11, 12, 15, 16, 16, 16, 17))
    ensures n.start == 3 && n.dateEnd == 11 && n.descStart == 12 && n.descEnd == 15
  {
    assert !IsDigit(TwoAmounts[0]) && !IsDigit(TwoAmounts[1]) && !IsDigit(TwoAmounts[2]);
    assert !IsDigit(TwoAmounts[11]) && !IsSpace(TwoAmounts[12]);
    assert IsSpace(TwoAmounts[n.descEnd]);
    assert !IsSpace(TwoAmounts[13]) && !IsSpace(TwoAmounts[14]);
  }

  /**
   * Text before the date is dropped, and the lazy description stops at the
   * first amount, so the second amount on the line is ignored.
   */
  lemma TwoAmountsRecord()
    ensures Classify(TwoAmounts) == Some(Transaction("01/02/24", "FEE", "1.00"))
  {
    var m := Match(3, 11, 12, 15, 16, 16, 16, 17);
    TwoAmountsGroups();
    TwoAmountsShape();
    forall n | Shape(TwoAmounts, n) && TriedNoLater(n, m)
      ensures n.start == 3 && n.dateEnd == 11 && n.descStart == 12 && n.descEnd == 15
    {
      TwoAmountsFirst(n);
    }
    FirstMatchRecord(TwoAmounts, m, Transaction("01/02/24", "FEE", "1.00"));
  }

  const Footer := "Page 1 of 2"

  /** A line without a date is no transaction. */
  lemma FooterNoRecord()
    ensures Classify(Footer) == None
  {
  }

  lemma SingleLines()
    ensures '\n' !in Refund && '\n' !in Footer
  {
  }

  /** A page with the same transaction twice and a footer between them yields both records, in order. */
  lemma DuplicatesKept()
    ensures DocumentRecords([Refund + "\n" + Footer + "\n" + Refund]) ==
            [Transaction("03/14/24", "REFUND", "-10.00"), Transaction("03/14/24", "REFUND", "-10.00")]
  {
    SingleLines();
    RefundRecord();
    FooterNoRecord();
    RepeatedLineKept(Refund, Footer, Transaction("03/14/24", "REFUND", "-10.00"));
  }

  /** A matching line that occurs twice on a page, with a line that does not match between, gives its record twice. */
  lemma RepeatedLineKept(line: string, other: string, t: Transaction)
    requires '\n' !in line && '\n' !in other
    requires Classify(line) == Some(t) && Classify(other) == None
    ensures DocumentRecords([line + "\n" + other + "\n" + line]) == [t, t]
  {
    ThreeLines(line, other, line);
    OnePage(line + "\n" + other + "\n" + line);
    ThreeLineRecords(line, other, line);
    assert [t] + [] + [t] == [t, t];
  }

  lemma ThreeLines(x: string, y: string, z: string)
    requires '\n' !in x && '\n' !in y && '\n' !in z
    ensures SplitLines(x + "\n" + y + "\n" + z) == [x, y, z]
  {
    var lines := [x, y, z];
    assert lines[1..] == [y, z] && lines[1..][1..] == [z];
    assert JoinLines([z]) == z;
    assert JoinLines([y, z]) == y + "\n" + z;
    assert JoinLines(lines) == x + "\n" + (y + "\n" + z);
    assert x + "\n" + (y + "\n" + z) == x + "\n" + y + "\n" + z;
    SplitJoinLines(lines);
  }

  lemma OnePage(page: string)
    ensures DocumentRecords([page]) == LineRecords(SplitLines(page))
  {
    assert [page][..0] == [] && [page][0] == page;
    assert PagesKept(Classify, [page]) == PagesKept(Classify, []) + Kept(Classify, SplitLines(page));
  }

  lemma ThreeLineRecords(x: string, y: string, z: string)
    ensures LineRecords([x, y, z]) == Listed(Classify(x)) + Listed(Classify(y)) + Listed(Classify(z))
  {
    var lines := [x, y, z];
    assert lines[..0] == [] && lines[..3] == lines;
    KeptSnoc(Classify, lines, 0);
    assert Kept(Classify, lines[..1]) == Listed(Classify(x));
    KeptSnoc(Classify, lines, 1);
    assert Kept(Classify, lines[..2]) == Listed(Classify(x)) + Listed(Classify(y));
    KeptSnoc(Classify, lines, 2);
  }

  lemma StatementBasename()
    ensures Basename("/home/me/statement.pdf") == "statement.pdf"
  {
    var path := "/home/me/statement.pdf";
    assert path[8] == '/' && forall k :: 8 < k < |path| ==> path[k] != '/';
    SliceIs(path, 9, "statement.pdf");
  }

  lemma StatementRoot()
    ensures RootOf("statement.pdf") == "statement"
  {
    var base := "statement.pdf";
    assert forall k :: 0 <= k < |base| ==> base[k] != '/';
    assert base[9] == '.' && forall k :: 9 < k < |base| ==> base[k] != '.';
    assert base[0] != '.';
    SliceIs(base, 0, "statement");
  }

  lemma DefaultNameDropsDirectoryAndExtension()
    ensures DefaultOutputName("/home/me/statement.pdf") == "statement" + Suffix
  {
    StatementBasename();
    StatementRoot();
  }

  lemma ArchiveBasename()
    ensures Basename("archive.tar.gz") == "archive.tar.gz"
  {
    var path := "archive.tar.gz";
    assert forall k :: 0 <= k < |path| ==> path[k] != '/';
  }

  lemma ArchiveRoot()
    ensures RootOf("archive.tar.gz") == "archive.tar"
  {
    var path := "archive.tar.gz";
    assert forall k :: 0 <= k < |path| ==> path[k] != '/';
    assert path[11] == '.' && forall k :: 11 < k < |path| ==> path[k] != '.';
    assert path[0] != '.';
    SliceIs(path, 0, "archive.tar");
  }

  lemma DefaultNameDropsLastExtensionOnly()
    ensures DefaultOutputName("archive.tar.gz") == "archive.tar" + Suffix
  {
    ArchiveBasename();
    ArchiveRoot();
  }

  lemma HiddenBasename()
    ensures Basename("scans/.hidden") == ".hidden"
  {
    var path := "scans/.hidden";
    assert path[5] == '/' && forall k :: 5 < k < |path| ==> path[k] != '/';
    SliceIs(path, 6, ".hidden");
  }

  lemma HiddenRoot()
    ensures RootOf(".hidden") == ".hidden"
  {
    var base := ".hidden";
    assert forall k :: 0 <= k < |base| ==> base[k] != '/';
    assert base[0] == '.' && forall k :: 0 < k < |base| ==> base[k] != '.';
  }

  lemma DefaultNameKeepsLeadingDot()
    ensures DefaultOutputName("scans/.hidden") == ".hidden" + Suffix
  {
    HiddenBasename();
    HiddenRoot();
  }
}
