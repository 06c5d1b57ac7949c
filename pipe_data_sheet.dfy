/** ACadLib/Utilities/PipeDataSheet.cs: the fixed workbook names, their resolution
    into ranges, and the A1 address of a single column of rows. */
module PipeDataSheets {
  import opened Failures
  import opened Workbook
  import opened DesignSheets

  /** The worksheet the constructor asks for. */
  const PipeDataSheetName: string := "PipeData"

  const PipeDataName: string := "PipeData"
  const FromName: string := "PipeData_From"
  const ToName: string := "PipeData_To"
  const FromToName: string := "PipeData_FromToId"
  const StartInvName: string := "PipeData_StartInv"
  const EndInvName: string := "PipeData_EndInv"
  const SlopeName: string := "PipeData_Slope"
  const LengthName: string := "PipeData_Length"
  const InnerDiameterName: string := "PipeData_InnerDiameter"
  const HandleName: string := "PipeData_Handle"

  /** The names the constructor looks up, in the order it looks them up. */
  const ResolutionOrder: seq<string> :=
    [PipeDataName, FromName, ToName, StartInvName, EndInvName, SlopeName, LengthName, InnerDiameterName, HandleName]

  // ---------------------------------------------------------------- addresses

  /** `(char)(columnNumber - 1 + 'A')`. For every column Excel has the code
      stays below 0x10000, so the C# cast does not wrap. */
  function ColumnLetter(columnNumber: Column): char
  {
    (columnNumber - 1 + 'A' as int) as char
  }

  /** The character is a capital letter exactly for columns 1 to 26, and then it is
      the column's letter in the alphabet; columns 33 to 58 run on past '[' .. '`' into
      the small letters 'a' .. 'z'. */
  lemma ColumnLetterIsLetterIff(columnNumber: Column)
    ensures 'A' <= ColumnLetter(columnNumber) <= 'Z' <==> columnNumber <= 26
    ensures 'a' <= ColumnLetter(columnNumber) <= 'z' <==> 33 <= columnNumber <= 58
    ensures ColumnLetter(columnNumber) as int - 'A' as int == columnNumber - 1
  {
  }

  function DigitChar(d: nat): char
    requires d < 10
  {
    ('0' as int + d) as char
  }

  predicate IsDigit(ch: char)
  {
    '0' <= ch <= '9'
  }

  /** The decimal digits of n, most significant first, with no leading zero. */
  function Digits(n: nat): string
  {
    if n < 10 then [DigitChar(n)] else Digits(n / 10) + [DigitChar(n % 10)]
  }

  /** `int.ToString()`: a leading '-' for a negative number. */
  function Decimal(i: int): string
  {
    if i < 0 then "-" + Digits(-i) else Digits(i)
  }

  predicate AllDigits(s: string)
  {
    forall k :: 0 <= k < |s| ==> IsDigit(s[k])
  }

  /** The number a string of digits denotes. */
  function DigitsValue(s: string): nat
    requires AllDigits(s)
  {
    if s == [] then 0 else DigitsValue(s[..|s| - 1]) * 10 + (s[|s| - 1] as int - '0' as int)
  }

  /** Reading a decimal integer back: an optional '-' and at least one digit. */
  function ParseDecimal(s: string): Option<int>
  {
    if |s| > 0 && s[0] == '-' then
      (if |s| > 1 && AllDigits(s[1..]) then Some(0 - DigitsValue(s[1..])) else None)
    else if |s| > 0 && AllDigits(s) then Some(DigitsValue(s))
    else None
  }

  lemma {:induction false} DigitsRoundTrip(n: nat)
    ensures |Digits(n)| > 0 && AllDigits(Digits(n)) && DigitsValue(Digits(n)) == n
  {
    if n >= 10 {
      DigitsRoundTrip(n / 10);
      var s := Digits(n);
      assert s[..|s| - 1] == Digits(n / 10);
    }
  }

  /** Reading back what `Decimal` writes gives the number again. */
  lemma DecimalRoundTrip(i: int)
    ensures ParseDecimal(Decimal(i)) == Some(i)
    ensures forall k :: 0 <= k < |Decimal(i)| ==> Decimal(i)[k] != ':'
  {
    if i < 0 {
      DigitsRoundTrip(-i);
      assert Decimal(i)[1..] == Digits(-i);
    } else {
      DigitsRoundTrip(i);
    }
  }

  /** The index of the first ':' in s. */
  function ColonIndex(s: string): Option<nat>
  {
    if s == [] then None
    else if s[0] == ':' then Some(0)
    else match ColonIndex(s[1..]) case None => None case Some(k) => Some(k + 1)
  }

  lemma {:induction false} ColonIndexAfter(a: string, b: string)
    requires forall k :: 0 <= k < |a| ==> a[k] != ':'
    ensures ColonIndex(a + ":" + b) == Some(|a|)
  {
    if a != [] {
      assert (a + ":" + b)[1..] == a[1..] + ":" + b;
      ColonIndexAfter(a[1..], b);
    }
  }

  /** An A1 reference of the form "<letter><row>:<letter><row>". */
  datatype A1Range = A1Range(firstColumn: char, firstRow: int, lastColumn: char, lastRow: int)

  /** How an address of that form reads: one column character, a row, ':', one column
      character, a row. */
  function ParseAddress(address: string): Option<A1Range>
  {
    if |address| < 1 then None
    else
      var rest := address[1..];
      match ColonIndex(rest)
      case None => None
      case Some(k) =>
        if k >= |rest| || |rest[k + 1..]| < 1 then None
        else
          var second := rest[k + 1..];
          match (ParseDecimal(rest[..k]), ParseDecimal(second[1..]))
          case (Some(top), Some(bottom)) => Some(A1Range(address[0], top, second[0], bottom))
          case _ => None
  }

  /** `GetRangeFromColumn`: the address, relative to `PipeDataRange`, of rows
      `upperBound` to `lowerBound` (both inclusive) of one column. */
  function GetRangeFromColumn(columnNumber: Column, upperBound: int, lowerBound: int): string
  {
    var letter := ColumnLetter(columnNumber);
    [letter] + Decimal(upperBound) + ":" + [letter] + Decimal(lowerBound)
  }

  /** The address names a single column (the same letter on both sides) and exactly
      the rows asked for. */
  lemma {:induction false} GetRangeFromColumnReadsBack(columnNumber: Column, upperBound: int, lowerBound: int)
    ensures ParseAddress(GetRangeFromColumn(columnNumber, upperBound, lowerBound))
      == Some(A1Range(ColumnLetter(columnNumber), upperBound, ColumnLetter(columnNumber), lowerBound))
  {
    var letter := ColumnLetter(columnNumber);
    var top, bottom := Decimal(upperBound), Decimal(lowerBound);
    var address := GetRangeFromColumn(columnNumber, upperBound, lowerBound);
    DecimalRoundTrip(upperBound);
    DecimalRoundTrip(lowerBound);
    var rest := address[1..];
    assert rest == top + ":" + ([letter] + bottom);
    ColonIndexAfter(top, [letter] + bottom);
    assert rest[..|top|] == top;
    assert rest[|top| + 1..] == [letter] + bottom;
    assert ([letter] + bottom)[1..] == bottom;
  }

  /** A column letter of an A1 reference, which Excel reads without regard to case. */
  predicate IsColumnLetter(ch: char)
  {
    'A' <= ch <= 'Z' || 'a' <= ch <= 'z'
  }

  /** The column a letter names: 'A' and 'a' are column 1, 'Z' and 'z' column 26. */
  function LetterColumn(ch: char): int
    requires IsColumnLetter(ch)
  {
    if ch <= 'Z' then ch as int - 'A' as int + 1 else ch as int - 'a' as int + 1
  }

  /** Excel's `Range[...]` accepts a single-letter A1 reference with a letter of either
      case and rows inside the sheet; anything else raises a COMException. */
  predicate ExcelAccepts(address: string)
  {
    match ParseAddress(address)
    case None => false
    case Some(r) =>
      IsColumnLetter(r.firstColumn) && IsColumnLetter(r.lastColumn)
      && 1 <= r.firstRow <= MaxRow && 1 <= r.lastRow <= MaxRow
  }

  /** The columns whose `GetRangeFromColumn` letter Excel can read. */
  predicate Addressable(columnNumber: Column)
  {
    columnNumber <= 26 || 33 <= columnNumber <= 58
  }

  /** An address from `GetRangeFromColumn` is accepted exactly when the column's
      character is a letter (columns 1 to 26, or 33 to 58 in small letters) and both
      rows exist; column 27 gives '[' and fails. */
  lemma ColumnAddressAcceptedIff(columnNumber: Column, upperBound: int, lowerBound: int)
    ensures ExcelAccepts(GetRangeFromColumn(columnNumber, upperBound, lowerBound)) <==>
      Addressable(columnNumber) && 1 <= upperBound <= MaxRow && 1 <= lowerBound <= MaxRow
  {
    GetRangeFromColumnReadsBack(columnNumber, upperBound, lowerBound);
    ColumnLetterIsLetterIff(columnNumber);
  }

  /** An accepted address given for column n names column n itself only for n up to 26:
      columns 33 to 58 come out as 'a' .. 'z' and so address column n - 32, on both
      sides of the ':'. */
  lemma ColumnAddressTarget(columnNumber: Column, upperBound: int, lowerBound: int)
    requires ExcelAccepts(GetRangeFromColumn(columnNumber, upperBound, lowerBound))
    ensures var r := ParseAddress(GetRangeFromColumn(columnNumber, upperBound, lowerBound)).value;
      && LetterColumn(r.firstColumn) == LetterColumn(r.lastColumn)
      && LetterColumn(r.firstColumn) == (if columnNumber <= 26 then columnNumber else columnNumber - 32)
      && (LetterColumn(r.firstColumn) == columnNumber <==> columnNumber <= 26)
  {
    GetRangeFromColumnReadsBack(columnNumber, upperBound, lowerBound);
    ColumnLetterIsLetterIff(columnNumber);
  }

  // ---------------------------------------------------------------- resolution

  /** The dictionary indexer `XlWorkbookNames[key]`, whose miss is a KeyNotFoundException. */
  datatype Lookup<+T> = Present(value: T) | KeyNotFound(key: string) {
    predicate IsFailure() { KeyNotFound? }
    function PropagateFailure<U>(): Lookup<U>
      requires KeyNotFound?
    {
      KeyNotFound(key)
    }
    function Extract(): T
      requires Present?
    {
      value
    }
  }

  function Index(table: map<string, Range>, key: string): Lookup<Range>
  {
    if key in table then Present(table[key]) else KeyNotFound(key)
  }

  /** The ranges ordered lookups of `keys` leave behind: each is set until the first
      missing key, and that one and every later one stays null. */
  function ResolveInOrder(table: map<string, Range>, keys: seq<string>): (ranges: seq<Option<Range>>)
    ensures |ranges| == |keys|
  {
    if keys == [] then []
    else if keys[0] in table then [Some(table[keys[0]])] + ResolveInOrder(table, keys[1..])
    else seq(|keys|, _ => None)
  }

  /** Range i is set exactly when keys 0..i are all present, and then it is the range of
      key i. */
  lemma {:induction false} ResolveInOrderIsPrefix(table: map<string, Range>, keys: seq<string>)
    ensures forall i :: 0 <= i < |keys| ==>
      (ResolveInOrder(table, keys)[i].Some? <==> forall j :: 0 <= j <= i ==> keys[j] in table)
    ensures forall i :: 0 <= i < |keys| && ResolveInOrder(table, keys)[i].Some? ==>
      ResolveInOrder(table, keys)[i].value == table[keys[i]]
  {
    if keys != [] && keys[0] in table {
      ResolveInOrderIsPrefix(table, keys[1..]);
      var r := ResolveInOrder(table, keys);
      forall i | 1 <= i < |keys|
        ensures r[i].Some? <==> forall j :: 0 <= j <= i ==> keys[j] in table
      {
        assert r[i] == ResolveInOrder(table, keys[1..])[i - 1];
        if !(forall j :: 0 <= j <= i ==> keys[j] in table) {
          var j :| 0 <= j <= i && keys[j] !in table;
          assert keys[1..][j - 1] == keys[j];
        }
      }
    }
  }

  /** Each range is set exactly when the one before it is set (or it is the first) and
      its own key is present: the shape a run of lookups leaves when the first miss
      stops it. */
  predicate Chained(table: map<string, Range>, keys: seq<string>, ranges: seq<Option<Range>>)
  {
    && |ranges| == |keys|
    && forall i {:trigger ranges[i]} :: 0 <= i < |keys| ==>
         ranges[i] == (if (i == 0 || ranges[i - 1].Some?) && keys[i] in table then Some(table[keys[i]]) else None)
  }

  lemma {:induction false} ChainedIsResolveInOrder(table: map<string, Range>, keys: seq<string>, ranges: seq<Option<Range>>)
    requires Chained(table, keys, ranges)
    ensures ranges == ResolveInOrder(table, keys)
  {
    if keys != [] {
      if keys[0] in table {
        assert Chained(table, keys[1..], ranges[1..]) by {
          forall i | 0 <= i < |keys| - 1
            ensures ranges[1..][i] == (if (i == 0 || ranges[1..][i - 1].Some?) && keys[1..][i] in table
                                         then Some(table[keys[1..][i]]) else None)
          {
            assert ranges[1..][i] == ranges[i + 1];
            assert keys[1..][i] == keys[i + 1];
            assert i > 0 ==> ranges[1..][i - 1] == ranges[i];
            assert ranges[i + 1] == (if (i + 1 == 0 || ranges[i].Some?) && keys[i + 1] in table
                                       then Some(table[keys[i + 1]]) else None);
          }
        }
        ChainedIsResolveInOrder(table, keys[1..], ranges[1..]);
        assert ranges[0] == Some(table[keys[0]]);
        assert ranges == [ranges[0]] + ranges[1..];
      } else {
        forall i | 0 <= i < |keys| ensures ranges[i] == None {
          NoneAfterMiss(table, keys, ranges, i);
        }
      }
    }
  }

  lemma {:induction false} NoneAfterMiss(table: map<string, Range>, keys: seq<string>, ranges: seq<Option<Range>>, i: nat)
    requires Chained(table, keys, ranges) && keys != [] && keys[0] !in table && i < |keys|
    ensures ranges[i] == None
  {
    var previousSet := i > 0 && ranges[i - 1].Some?;
    assert ranges[i] == (if (i == 0 || previousSet) && keys[i] in table then Some(table[keys[i]]) else None);
    if i > 0 {
      NoneAfterMiss(table, keys, ranges, i - 1);
    }
  }

  /** One lookup of the run: it happens only when the one before succeeded. */
  function NextRange(table: map<string, Range>, key: string, previousSet: bool): Option<Range>
  {
    if previousSet && key in table then Some(table[key]) else None
  }

  lemma StepsAreChained(table: map<string, Range>, r: seq<Option<Range>>)
    requires |r| == 9
    requires r[0] == NextRange(table, PipeDataName, true)
    requires r[1] == NextRange(table, FromName, r[0].Some?)
    requires r[2] == NextRange(table, ToName, r[1].Some?)
    requires r[3] == NextRange(table, StartInvName, r[2].Some?)
    requires r[4] == NextRange(table, EndInvName, r[3].Some?)
    requires r[5] == NextRange(table, SlopeName, r[4].Some?)
    requires r[6] == NextRange(table, LengthName, r[5].Some?)
    requires r[7] == NextRange(table, InnerDiameterName, r[6].Some?)
    requires r[8] == NextRange(table, HandleName, r[7].Some?)
    ensures Chained(table, ResolutionOrder, r)
  {
    forall i | 0 <= i < 9
      ensures r[i] == (if (i == 0 || r[i - 1].Some?) && ResolutionOrder[i] in table
                       then Some(table[ResolutionOrder[i]]) else None)
    {
    }
  }

  /** Every range null. */
  const Unresolved: seq<Option<Range>> := [None, None, None, None, None, None, None, None, None]

  /** Ranges looked up one after another as the constructor does are those of ordered
      resolution. */
  lemma ResolvedInOrder(table: map<string, Range>, r: seq<Option<Range>>)
    requires |r| == 9
    requires r[0] == NextRange(table, PipeDataName, true)
    requires r[1] == NextRange(table, FromName, r[0].Some?)
    requires r[2] == NextRange(table, ToName, r[1].Some?)
    requires r[3] == NextRange(table, StartInvName, r[2].Some?)
    requires r[4] == NextRange(table, EndInvName, r[3].Some?)
    requires r[5] == NextRange(table, SlopeName, r[4].Some?)
    requires r[6] == NextRange(table, LengthName, r[5].Some?)
    requires r[7] == NextRange(table, InnerDiameterName, r[6].Some?)
    requires r[8] == NextRange(table, HandleName, r[7].Some?)
    ensures r == ResolveInOrder(table, ResolutionOrder)
  {
    StepsAreChained(table, r);
    ChainedIsResolveInOrder(table, ResolutionOrder, r);
  }

  /** The sheet the plugin keeps open: a design sheet plus the ranges its constructor
      found. The ranges are set only by the constructor. */
  class PipeDataSheet {
    const design: DesignSheet

    var pipeDataRange: Option<Range>
    var fromRange: Option<Range>
    var toRange: Option<Range>
    /** Declared but never assigned. */
    var fromToRange: Option<Range>
    var startInvRange: Option<Range>
    var endInvRange: Option<Range>
    var slopeRange: Option<Range>
    var lengthRange: Option<Range>
    var innerDiameterRange: Option<Range>
    var handleRange: Option<Range>

    /** The bulk writes made through `PipeDataRange`, oldest first. */
    var writes: seq<ColumnWrite>

    /** The resolved ranges in `ResolutionOrder`. */
    function Ranges(): seq<Option<Range>>
      reads this
    {
      [pipeDataRange, fromRange, toRange, startInvRange, endInvRange,
       slopeRange, lengthRange, innerDiameterRange, handleRange]
    }

    /** The ranges are what ordered resolution over the names gives, all null when the
        base constructor threw, and `FromToRange` is null. */
    ghost predicate Valid()
      reads this, design
    {
      && fromToRange.None?
      && Ranges() == (if design.fault.None? then ResolveInOrder(design.workbookNames, ResolutionOrder)
                      else Unresolved)
    }

    constructor (filename: Option<string>, pipeDataSheetName: string, files: set<string>, excel: Excel)
      ensures Valid() && fresh(design) && writes == []
      ensures design.OpenedFrom(filename, pipeDataSheetName, files, excel)
    {
      design := new DesignSheet(filename, pipeDataSheetName, files, excel);
      pipeDataRange, fromRange, toRange, fromToRange, startInvRange := None, None, None, None, None;
      endInvRange, slopeRange, lengthRange, innerDiameterRange, handleRange := None, None, None, None, None;
      writes := [];
      new;
      if design.fault.None? {
        // The KeyNotFoundException that stops the lookups is swallowed.
        var _ := ResolveRanges();
        ResolvedInOrder(design.workbookNames, Ranges());
      }
    }

    /** The constructor's `try` block: look the names up one after another; a missing
        name throws and leaves that range and every later one null. */
    method ResolveRanges() returns (status: Lookup<()>)
      requires pipeDataRange.None? && fromRange.None? && toRange.None? && startInvRange.None? && endInvRange.None?
      requires slopeRange.None? && lengthRange.None? && innerDiameterRange.None? && handleRange.None?
      modifies this`pipeDataRange, this`fromRange, this`toRange, this`startInvRange, this`endInvRange,
        this`slopeRange, this`lengthRange, this`innerDiameterRange, this`handleRange
      ensures pipeDataRange == NextRange(design.workbookNames, PipeDataName, true)
      ensures fromRange == NextRange(design.workbookNames, FromName, pipeDataRange.Some?)
      ensures toRange == NextRange(design.workbookNames, ToName, fromRange.Some?)
      ensures startInvRange == NextRange(design.workbookNames, StartInvName, toRange.Some?)
      ensures endInvRange == NextRange(design.workbookNames, EndInvName, startInvRange.Some?)
      ensures slopeRange == NextRange(design.workbookNames, SlopeName, endInvRange.Some?)
      ensures lengthRange == NextRange(design.workbookNames, LengthName, slopeRange.Some?)
      ensures innerDiameterRange == NextRange(design.workbookNames, InnerDiameterName, lengthRange.Some?)
      ensures handleRange == NextRange(design.workbookNames, HandleName, innerDiameterRange.Some?)
      ensures status.Present? <==> handleRange.Some?
    {
      var table := design.workbookNames;
      var r0 :- Index(table, PipeDataName);
      pipeDataRange := Some(r0);
      var r1 :- Index(table, FromName);
      fromRange := Some(r1);
      var r2 :- Index(table, ToName);
      toRange := Some(r2);
      var r3 :- Index(table, StartInvName);
      startInvRange := Some(r3);
      var r4 :- Index(table, EndInvName);
      endInvRange := Some(r4);
      var r5 :- Index(table, SlopeName);
      slopeRange := Some(r5);
      var r6 :- Index(table, LengthName);
      lengthRange := Some(r6);
      var r7 :- Index(table, InnerDiameterName);
      innerDiameterRange := Some(r7);
      var r8 :- Index(table, HandleName);
      handleRange := Some(r8);
      status := Present(());
    }

    /** The inherited `IsReady`: the data sheet is ready exactly when its design sheet's
        application is alive, answers and has an active workbook. */
    predicate IsReady(): (ready: bool)
      reads this, design
      ensures ready <==> design.hasApp && !design.appReleased && design.responding && design.activeWorkbook
    {
      design.IsReady()
    }

    /** `PipeDataRange.Range[address].Value2 = values`: a null `PipeDataRange` is a
        NullReference; a call into an Excel process that no longer answers, or an
        address Excel refuses, is a COMException; neither is caught. */
    method WriteColumn(address: string, values: seq<Cell>) returns (outcome: Outcome)
      modifies this`writes
      ensures pipeDataRange.None? ==> outcome == Raised(NullReference) && writes == old(writes)
      ensures pipeDataRange.Some? && (!IsReady() || !ExcelAccepts(address)) ==>
        outcome == Raised(Com) && writes == old(writes)
      ensures pipeDataRange.Some? && IsReady() && ExcelAccepts(address) ==>
        outcome == Completed && writes == old(writes) + [ColumnWrite(address, values)]
    {
      if pipeDataRange.None? {
        return Raised(NullReference);
      }
      if !IsReady() || !ExcelAccepts(address) {
        return Raised(Com);
      }
      writes := writes + [ColumnWrite(address, values)];
      outcome := Completed;
    }
  }

  /** "PipeData_Handle" is looked up last, so when the handle range is set every
      other range is set too. */
  lemma HandleRangeImpliesAll(table: map<string, Range>)
    ensures ResolveInOrder(table, ResolutionOrder)[8].Some? ==>
      forall i :: 0 <= i < 9 ==> ResolveInOrder(table, ResolutionOrder)[i].Some?
  {
    ResolveInOrderIsPrefix(table, ResolutionOrder);
  }
}
