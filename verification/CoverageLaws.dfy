/** Conservation laws of coverage and citations, for one profile and for several. */
module CoverageLaws {
  import opened Values
  import opened PolicyProfiles
  import opened PolicySupervisor
  import opened Text

  // ----- one profile

  /** The items whose flag is `wanted`. */
  ghost function Flagged(items: seq<string>, flags: seq<bool>, wanted: bool): seq<string>
    requires |items| == |flags|
  {
    if items == [] then []
    else
      var n := |items| - 1;
      Flagged(items[..n], flags[..n], wanted) + (if flags[n] == wanted then [items[n]] else [])
  }

  lemma {:induction false} FlaggedSplit(items: seq<string>, flags: seq<bool>)
    requires |items| == |flags|
    ensures |Flagged(items, flags, true)| + |Flagged(items, flags, false)| == |items|
    ensures forall x :: x in Flagged(items, flags, true) ==> x in items
  {
    if items != [] {
      var n := |items| - 1;
      FlaggedSplit(items[..n], flags[..n]);
      assert items[..n] + [items[n]] == items;
    }
  }

  /** Which of the subresults after the primary one cover their dimension. */
  ghost function Flags(subresults: seq<SubResult>, threshold: real): seq<bool> {
    seq(|subresults|, i requires 0 <= i < |subresults| => Covers(subresults[i], threshold))
  }

  ghost function ResultDimensions(subresults: seq<SubResult>): seq<string> {
    seq(|subresults|, i requires 0 <= i < |subresults| => subresults[i].dimension)
  }

  lemma {:induction false} CoveredIsFlagged(subresults: seq<SubResult>, threshold: real)
    ensures CoveredDimensions(subresults, threshold) ==
            Flagged(ResultDimensions(subresults), Flags(subresults, threshold), true)
  {
    if subresults != [] {
      var n := |subresults| - 1;
      CoveredIsFlagged(subresults[..n], threshold);
      assert ResultDimensions(subresults)[..n] == ResultDimensions(subresults[..n]);
      assert Flags(subresults, threshold)[..n] == Flags(subresults[..n], threshold);
    }
  }

  /** A leading item that is not flagged changes nothing. */
  lemma {:induction false} FlaggedSkipsFirst(first: string, items: seq<string>, flags: seq<bool>)
    requires |items| == |flags|
    ensures Flagged([first] + items, [false] + flags, true) == Flagged(items, flags, true)
  {
    if items != [] {
      var n := |items| - 1;
      FlaggedSkipsFirst(first, items[..n], flags[..n]);
      assert ([first] + items)[..n + 1] == [first] + items[..n];
      assert ([false] + flags)[..n + 1] == [false] + flags[..n];
    } else {
      assert [first] + items == [first] && [false] + flags == [false];
      assert [first][..0] == [] && [false][..0] == [];
    }
  }

  /** Among distinct items, those that are not in the flagged list are the ones not flagged. */
  lemma {:induction false} WithoutFlagged(items: seq<string>, flags: seq<bool>, taken: seq<string>)
    requires |items| == |flags|
    requires forall i :: 0 <= i < |items| ==> (items[i] in taken <==> flags[i])
    ensures Without(items, taken) == Flagged(items, flags, false)
  {
    if items != [] {
      WithoutFlagged(items[..|items| - 1], flags[..|items| - 1], taken);
    }
  }

  lemma {:induction false} FlaggedMembers(items: seq<string>, flags: seq<bool>, i: nat)
    requires |items| == |flags| && i < |items| && NoDuplicates(items)
    ensures items[i] in Flagged(items, flags, true) <==> flags[i]
  {
    var n := |items| - 1;
    FlaggedSplit(items[..n], flags[..n]);
    if i < n {
      assert NoDuplicates(items[..n]);
      FlaggedMembers(items[..n], flags[..n], i);
    } else {
      assert forall j :: 0 <= j < n ==> items[..n][j] == items[j] != items[n];
      assert items[n] !in items[..n];
    }
  }

  /** Every required dimension is in exactly one of the two lists, in the order in which it is required. */
  ghost predicate Splits(required: seq<string>, covered: seq<string>, missing: seq<string>) {
    exists flags: seq<bool> :: |flags| == |required| &&
      covered == Flagged(required, flags, true) && missing == Flagged(required, flags, false)
  }

  lemma SplitSizes(required: seq<string>, covered: seq<string>, missing: seq<string>)
    requires Splits(required, covered, missing)
    ensures |covered| + |missing| == |required|
  {
    var flags: seq<bool> :| |flags| == |required| &&
      covered == Flagged(required, flags, true) && missing == Flagged(required, flags, false);
    FlaggedSplit(required, flags);
  }

  lemma CoverageSplits(subresults: seq<SubResult>, required: seq<string>, threshold: real)
    requires ResultDimensions(subresults) == [PRIMARY] + required && NoDuplicates(required)
    ensures var covered := CoveredDimensions(subresults, threshold);
            Splits(required, covered, Without(required, covered))
  {
    var flags := Flags(subresults, threshold);
    var covered := CoveredDimensions(subresults, threshold);
    assert ResultDimensions(subresults)[0] == PRIMARY;
    assert flags == [false] + flags[1..];
    CoveredIsFlagged(subresults, threshold);
    FlaggedSkipsFirst(PRIMARY, required, flags[1..]);
    FlaggedSplit(required, flags[1..]);
    forall i | 0 <= i < |required| ensures required[i] in covered <==> flags[1..][i] {
      FlaggedMembers(required, flags[1..], i);
    }
    WithoutFlagged(required, flags[1..], covered);
  }

  lemma {:induction false} AnswersFollowSubquestions(tool: Tool, ctx: Context, sqs: seq<Subquestion>)
    ensures ResultDimensions(AnswersTo(tool, ctx, sqs).subresults) == DimensionsOf(sqs)
  {
    if sqs != [] {
      var n := |sqs| - 1;
      AnswersFollowSubquestions(tool, ctx, sqs[..n]);
      assert DimensionsOf(sqs) == DimensionsOf(sqs[..n]) + [sqs[n].dimension];
      var before := AnswersTo(tool, ctx, sqs[..n]).subresults;
      var last := SubResultOf(sqs[n], Ask(tool, ctx, sqs[n]));
      assert ResultDimensions(before + [last]) == ResultDimensions(before) + [last.dimension];
    }
  }

  // ----- the ratio

  lemma RatioBounds(required: nat, covered: nat)
    requires covered <= required
    ensures 0.0 <= Ratio(required, covered) <= 1.0
  {
    if required > 0 {
      QuotientBounds(covered, required);
      RoundBounds(covered as real / required as real * 10000.0);
    }
  }

  lemma QuotientBounds(a: nat, b: nat)
    requires a <= b && b > 0
    ensures 0.0 <= a as real / b as real <= 1.0
  {}

  lemma RoundBounds(x: real)
    requires 0.0 <= x <= 10000.0
    ensures 0 <= RoundHalfEven(x) <= 10000
    ensures RoundHalfEven(x) == 10000 <==> x >= 9999.5
  {}

  /** The rounded ratio reads 1 exactly if at most one dimension in 20000 is missing. */
  lemma RatioIsOneExactlyWhen(required: nat, covered: nat)
    requires covered <= required
    ensures Ratio(required, covered) == 1.0 <==> 20000 * (required - covered) <= required
  {
    if required > 0 {
      var q := covered as real / required as real;
      QuotientBounds(covered, required);
      RoundBounds(q * 10000.0);
      assert q * 10000.0 >= 9999.5 <==> 20000.0 * q >= 19999.0;
      QuotientCompare(covered, required);
    }
  }

  /** One missing dimension in 20000 does not show. */
  lemma RatioHidesOne()
    ensures Ratio(20000, 19999) == 1.0
  {
    RatioIsOneExactlyWhen(20000, 19999);
  }

  lemma Scaled(x: real, y: real, b: real)
    requires b > 0.0
    ensures x >= y <==> x * b >= y * b
  {}

  lemma ScaledQuotient(q: real, a: real, b: real)
    requires b > 0.0 && q * b == a
    ensures 20000.0 * q >= 19999.0 <==> 20000.0 * a >= 19999.0 * b
  {
    Scaled(20000.0 * q, 19999.0, b);
    assert 20000.0 * q * b == 20000.0 * (q * b);
  }

  lemma QuotientCompare(a: nat, b: nat)
    requires b > 0
    ensures 20000.0 * (a as real / b as real) >= 19999.0 <==> 20000 * a >= 19999 * b
  {
    ScaledQuotient(a as real / b as real, a as real, b as real);
  }

  /** What a report says about its coverage, for a profile that is exact on the question. */
  lemma {:induction false} ReportConservesCoverage(p: Profile, tool: Tool, ctx: Context)
    requires Exact(p, ctx.question)
    ensures var r := WorkOn(p, tool, ctx).report;
            && Splits(r.coverage.required, r.coverage.covered, r.missing)
            && |r.coverage.covered| + |r.missing| == |r.coverage.required|
            && 0.0 <= r.coverage.ratio <= 1.0
            && (r.coverage.ratio == 1.0 <==> 20000 * |r.missing| <= |r.coverage.required|)
            && (r.interrupt.None? <==> r.missing == [])
            && (r.missing == [] <==> |r.coverage.covered| == |r.coverage.required|)
  {
    var sqs := SubquestionsOf(p, ctx.question);
    AnswersFollowSubquestions(tool, ctx, sqs);
    var r := WorkOn(p, tool, ctx).report;
    CoverageSplits(r.subresults, r.coverage.required, ctx.threshold);
    SplitSizes(r.coverage.required, r.coverage.covered, r.missing);
    RatioBounds(|r.coverage.required|, |r.coverage.covered|);
    RatioIsOneExactlyWhen(|r.coverage.required|, |r.coverage.covered|);
  }

  /** A report with at most 5 required dimensions reads 1 exactly if nothing is missing. */
  ghost predicate RatioIsTelling(r: Report) {
    && |r.coverage.required| <= 5
    && (r.coverage.ratio == 1.0 <==> r.missing == [])
    && (r.interrupt.None? <==> r.missing == [])
  }

  lemma ShortListsTell(p: Profile, tool: Tool, ctx: Context)
    requires Exact(p, ctx.question) && |RequiredOf(p, ctx.question)| <= 5
    ensures RatioIsTelling(WorkOn(p, tool, ctx).report)
  {
    ReportConservesCoverage(p, tool, ctx);
  }

  lemma RequiredIsShort(hotel: Texts, flight: Texts, reimbursement: Texts, p: Profile, q: string)
    requires p in BuiltInProfiles(hotel, flight, reimbursement)
    ensures |RequiredOf(p, q)| <= 5
  {
    ChosenIsShort(HotelOptions(q, hotel.extract(q)));
    ChosenIsShort(FlightOptions(q, flight.extract(q)));
    ChosenIsShort(ReimbursementOptions(q, reimbursement.extract(q)));
  }

  /** For the profiles of the system the ratio reads 1 exactly if nothing is missing, that is, if there is no
      interrupt. */
  lemma {:induction false} BuiltInRatio(
    hotel: Texts, flight: Texts, reimbursement: Texts, p: Profile, tool: Tool, ctx: Context)
    requires p in BuiltInProfiles(hotel, flight, reimbursement)
    ensures RatioIsTelling(WorkOn(p, tool, ctx).report)
  {
    ProfilesAreExact(hotel, flight, reimbursement, ctx.question);
    RequiredIsShort(hotel, flight, reimbursement, p, ctx.question);
    ShortListsTell(p, tool, ctx);
  }

  lemma {:induction false} ChosenIsShort(options: seq<(bool, string)>)
    ensures |Chosen(options)| <= |options|
  {
    if options != [] {
      ChosenIsShort(options[..|options| - 1]);
    }
  }
}
