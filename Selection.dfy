/**
 * Choosing the reports of the requested month from the remote directory
 * listing: an order-preserving filter on the file names.
 */
module Selection {
  import opened Wrappers
  import opened Entities
  import opened Formatting

  /**
   * How a file name is compared with the `MM-YYYY` token. `SourceSlice` is
   * the comparison the endpoint makes: the seven characters at offset 3.
   * Upstream names read `MM-DD-YYYY.csv`, so that slice is `DD-YYYY`, and the
   * request's month is compared with the day. `MonthAndYear` is the evidently
   * intended comparison: the month field and the `-YYYY` field, skipping the day.
   */
  datatype NameRule = SourceSlice | MonthAndYear

  predicate NameMatches(name: string, token: string, rule: NameRule)
    requires |name| >= 10
  {
    match rule
    case SourceSlice => name[3..10] == token
    case MonthAndYear => name[..2] + name[5..10] == token
  }

  /**
   * A listing entry belongs to the request whose token is `token` when it
   * has a name of at least 10 characters that matches the token, is a plain
   * file, and has a download URL. A null name fails the first test, so the
   * source's trailing null check on the name never decides anything.
   */
  predicate IsRelated(o: FileMeta, token: string, rule: NameRule) {
    o.name.Some? && |o.name.value| >= 10 && NameMatches(o.name.value, token, rule) &&
    o.kind == Some("file") &&
    o.downloadUrl.Some?
  }

  /** The related entries of `listing`, in listing order. */
  function Related(listing: seq<FileMeta>, token: string, rule: NameRule): (r: seq<FileMeta>)
    ensures |r| <= |listing|
    ensures forall k :: 0 <= k < |r| ==> IsRelated(r[k], token, rule)
    decreases |listing|
  {
    if listing == [] then []
    else
      var rest := Related(listing[..|listing| - 1], token, rule);
      var o := listing[|listing| - 1];
      if IsRelated(o, token, rule) then rest + [o] else rest
  }

  /** The `foreach` over the deserialized listing that fills `relatedMeta`. */
  method SelectRelated(contents: seq<FileMeta>, token: string, rule: NameRule) returns (relatedMeta: seq<FileMeta>)
    ensures relatedMeta == Related(contents, token, rule)
  {
    relatedMeta := [];
    var i := 0;
    while i < |contents|
      invariant 0 <= i <= |contents|
      invariant relatedMeta == Related(contents[..i], token, rule)
    {
      var o := contents[i];
      assert contents[..i + 1][..i] == contents[..i];
      if IsRelated(o, token, rule) {
        relatedMeta := relatedMeta + [o];
      }
      i := i + 1;
    }
    assert contents[..i] == contents;
  }

  /** An entry is selected exactly when it is in the listing and related. */
  lemma {:induction false} RelatedMembership(listing: seq<FileMeta>, token: string, rule: NameRule, o: FileMeta)
    ensures o in Related(listing, token, rule) <==> o in listing && IsRelated(o, token, rule)
    decreases |listing|
  {
    if listing != [] {
      var init := listing[..|listing| - 1];
      RelatedMembership(init, token, rule, o);
      assert listing == init + [listing[|listing| - 1]];
    }
  }

  /** Selecting from two listings one after the other gives the two selections one after the other. */
  lemma {:induction false} RelatedConcat(a: seq<FileMeta>, b: seq<FileMeta>, token: string, rule: NameRule)
    ensures Related(a + b, token, rule) == Related(a, token, rule) + Related(b, token, rule)
    decreases |b|
  {
    if b == [] {
      assert a + b == a;
    } else {
      var init := b[..|b| - 1];
      assert (a + b)[..|a + b| - 1] == a + init;
      RelatedConcat(a, init, token, rule);
    }
  }

  /** `idx` places each element of `a` at a strictly later position of `b` than the one before. */
  predicate EmbedsBy(a: seq<FileMeta>, b: seq<FileMeta>, idx: seq<nat>) {
    |idx| == |a| &&
    (forall k :: 0 <= k < |idx| ==> idx[k] < |b| && b[idx[k]] == a[k]) &&
    (forall k, l :: 0 <= k < l < |idx| ==> idx[k] < idx[l])
  }

  /** The selection is a subsequence of the listing: it keeps the listing's order. */
  lemma {:induction false} RelatedIsSubsequence(listing: seq<FileMeta>, token: string, rule: NameRule) returns (idx: seq<nat>)
    ensures EmbedsBy(Related(listing, token, rule), listing, idx)
    decreases |listing|
  {
    if listing == [] {
      idx := [];
    } else {
      var init := listing[..|listing| - 1];
      idx := RelatedIsSubsequence(init, token, rule);
      if IsRelated(listing[|listing| - 1], token, rule) {
        idx := idx + [|listing| - 1];
      }
    }
  }

  /**
   * Nothing matches a token that is not seven characters long: a year with
   * other than four digits can never select a file.
   */
  lemma {:induction false} RelatedNeedsSevenCharacterToken(listing: seq<FileMeta>, token: string, rule: NameRule)
    requires |token| != 7
    ensures Related(listing, token, rule) == []
    decreases |listing|
  {
    if listing != [] {
      RelatedNeedsSevenCharacterToken(listing[..|listing| - 1], token, rule);
    }
  }

  /** The upstream report name for a day: `MM-DD-YYYY.csv`. */
  function ReportFileName(year: nat, month: nat, day: nat): string
    requires month < 100 && day < 100
  {
    TwoDigits(month) + "-" + TwoDigits(day) + "-" + NatToDecimal(year) + ".csv"
  }

  function ListingEntry(name: string): FileMeta {
    FileMeta(None, None, None, Some(name), None, Some("https://example.invalid/" + name),
             None, None, Some("file"), EmptyGuid, EmptyGuid)
  }

  /** The pieces of a report name, read back by position. */
  lemma ReportFileNameFields(year: nat, month: nat, day: nat)
    requires 1000 <= year <= 9999 && month < 100 && day < 100
    ensures var n := ReportFileName(year, month, day);
      |n| == 14 && n[..2] == TwoDigits(month) && n[2..3] == "-" && n[3..5] == TwoDigits(day) &&
      n[5..10] == "-" + NatToDecimal(year)
  {
    DecimalLength(year, 4);
    DecimalLength(year, 3);
  }

  lemma TwoDigitsInjective(a: nat, b: nat)
    requires a < 100 && b < 100 && TwoDigits(a) == TwoDigits(b)
    ensures a == b
  {
    TwoDigitsRoundTrip(a);
    TwoDigitsRoundTrip(b);
  }

  lemma DecimalInjective(a: nat, b: nat)
    requires NatToDecimal(a) == NatToDecimal(b)
    ensures a == b
  {
    DecimalRoundTrip(a);
    DecimalRoundTrip(b);
  }

  /**
   * As written, the endpoint keeps the report of day `day` of month
   * `fileMonth` exactly when the DAY equals the requested month (and the
   * years agree): the month of the file plays no part.
   */
  lemma SourceSliceComparesDay(year: int, month: int, fileYear: nat, fileMonth: nat, day: nat)
    requires 1000 <= year <= 9999 && 1 <= month <= 12
    requires 1000 <= fileYear <= 9999 && 1 <= fileMonth <= 12 && 1 <= day <= 31
    ensures NameMatches(ReportFileName(fileYear, fileMonth, day), DateToken(year, month), SourceSlice)
        <==> day == month && fileYear == year
  {
    var n := ReportFileName(fileYear, fileMonth, day);
    var t := DateToken(year, month);
    ReportFileNameFields(fileYear, fileMonth, day);
    DateTokenParses(year, month);
    DateTokenLength(year, month);
    assert n[3..10] == n[3..5] + n[5..10];
    assert t == t[..2] + t[2..];
    if n[3..10] == t {
      assert n[3..5] == t[..2];
      TwoDigitsInjective(day, month);
      assert n[5..10] == t[2..];
      assert NatToDecimal(fileYear) == (n[5..10])[1..];
      DecimalInjective(fileYear, year);
    }
  }

  /**
   * With the intended comparison, the report of any day is kept exactly
   * when its month and year are the requested ones.
   */
  lemma MonthAndYearComparesMonth(year: int, month: int, fileYear: nat, fileMonth: nat, day: nat)
    requires 1000 <= year <= 9999 && 1 <= month <= 12
    requires 1000 <= fileYear <= 9999 && 1 <= fileMonth <= 12 && 1 <= day <= 31
    ensures NameMatches(ReportFileName(fileYear, fileMonth, day), DateToken(year, month), MonthAndYear)
        <==> fileMonth == month && fileYear == year
  {
    var n := ReportFileName(fileYear, fileMonth, day);
    var t := DateToken(year, month);
    ReportFileNameFields(fileYear, fileMonth, day);
    DateTokenParses(year, month);
    DateTokenLength(year, month);
    assert t == t[..2] + t[2..];
    if n[..2] + n[5..10] == t {
      assert n[..2] == t[..2];
      TwoDigitsInjective(fileMonth, month);
      assert n[5..10] == t[2..];
      assert NatToDecimal(fileYear) == (n[5..10])[1..];
      DecimalInjective(fileYear, year);
    }
  }

  /**
   * As written, the March 2021 request drops the 15 March report and keeps
   * the 3 April one.
   */
  lemma SourceSliceSelectsWrongDay()
    ensures Related([ListingEntry("03-15-2021.csv"), ListingEntry("04-03-2021.csv")], DateToken(2021, 3), SourceSlice)
         == [ListingEntry("04-03-2021.csv")]
  {
    var listing := [ListingEntry("03-15-2021.csv"), ListingEntry("04-03-2021.csv")];
    assert DateToken(2021, 3) == "03-2021";
    var march, april := "03-15-2021.csv", "04-03-2021.csv";
    assert march[3..10][0] == '1';
    assert april[3..10] == "03-2021";
    assert !IsRelated(listing[0], "03-2021", SourceSlice);
    assert IsRelated(listing[1], "03-2021", SourceSlice);
    assert listing[..1][..0] == [];
    assert listing[..|listing| - 1] == [listing[0]];
  }

  /** With the intended comparison, the March 2021 request keeps the 15 March report and drops the 15 April one. */
  lemma SelectsMarch2021()
    ensures DateToken(2021, 3) == "03-2021"
    ensures Related([ListingEntry("03-15-2021.csv"), ListingEntry("04-15-2021.csv")], DateToken(2021, 3), MonthAndYear)
         == [ListingEntry("03-15-2021.csv")]
  {
    var listing := [ListingEntry("03-15-2021.csv"), ListingEntry("04-15-2021.csv")];
    var march, april := "03-15-2021.csv", "04-15-2021.csv";
    assert march[..2] == "03" && march[5..10] == "-2021";
    assert march[..2] + march[5..10] == "03-2021";
    assert april[..2] == "04";
    assert (april[..2] + april[5..10])[1] == '4';
    assert IsRelated(listing[0], "03-2021", MonthAndYear);
    assert !IsRelated(listing[1], "03-2021", MonthAndYear);
    assert listing[..1][..0] == [];
    assert listing[..|listing| - 1] == [listing[0]];
  }
}
