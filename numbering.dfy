/** The invoice number the new-invoice form suggests: `INV-{year}-` followed by a
    sequence number zero-padded to at least three digits. */
module Numbering {
  import opened Wrappers
  import opened Models
  import Text
  import Calendar

  /** `s` starts with `prefix` (the `LIKE 'prefix%'` filter). */
  predicate HasPrefix(s: string, prefix: string)
  {
    |prefix| <= |s| && s[..|prefix|] == prefix
  }

  function YearPrefix(year: nat): string
  {
    "INV-" + Text.Digits(year) + "-"
  }

  /** The prefixed invoice with the largest id, whoever owns it (ORDER BY id
      DESC, first row). */
  function LastByPrefix(invoices: seq<Invoice>, prefix: string): (r: Option<Invoice>)
    ensures r.None? ==> forall inv :: inv in invoices ==> !HasPrefix(inv.number, prefix)
    ensures r.Some? ==> r.value in invoices && HasPrefix(r.value.number, prefix)
    ensures r.Some? ==> forall inv :: inv in invoices && HasPrefix(inv.number, prefix) ==> inv.id <= r.value.id
  {
    if invoices == [] then None
    else
      var rest := LastByPrefix(invoices[1..], prefix);
      if !HasPrefix(invoices[0].number, prefix) then rest
      else if rest.Some? && invoices[0].id <= rest.value.id then rest
      else Some(invoices[0])
  }

  /** The sequence number of an invoice number: its last `-` segment read as a
      decimal number. */
  function SequenceOf(number: string): Option<nat>
  {
    Text.ParseNat(Text.LastSegment(number, '-'))
  }

  /** The sequence after the last prefixed invoice's, or 1 when there is no such
      invoice or its last segment is not a number. */
  function NextSequence(invoices: seq<Invoice>, prefix: string): (n: nat)
    ensures n >= 1
    ensures LastByPrefix(invoices, prefix).None? ==> n == 1
    ensures var last := LastByPrefix(invoices, prefix);
      last.Some? && SequenceOf(last.value.number).Some? ==> n == SequenceOf(last.value.number).value + 1
    ensures var last := LastByPrefix(invoices, prefix);
      last.Some? && SequenceOf(last.value.number).None? ==> n == 1
  {
    match LastByPrefix(invoices, prefix)
    case None => 1
    case Some(last) =>
      match SequenceOf(last.number)
      case None => 1
      case Some(v) => v + 1
  }

  function FormatNumber(prefix: string, sequence: nat): string
  {
    prefix + Text.ZeroPad(sequence, 3)
  }

  /** The suggestion for a form opened on day `today`. */
  function Suggest(invoices: seq<Invoice>, today: Calendar.Day): string
  {
    var prefix := YearPrefix(Calendar.FromOrdinal(today).year);
    FormatNumber(prefix, NextSequence(invoices, prefix))
  }

  /** A formatted number carries the prefix, at least three digits after it, and
      its last segment reads back as the sequence it was built from. */
  lemma FormatRoundTrip(year: nat, sequence: nat)
    ensures var s := FormatNumber(YearPrefix(year), sequence);
      && HasPrefix(s, YearPrefix(year))
      && |s| >= |YearPrefix(year)| + 3
      && Text.AllDigits(s[|YearPrefix(year)|..])
      && SequenceOf(s) == Some(sequence)
  {
    var pad := Text.ZeroPad(sequence, 3);
    var s := FormatNumber(YearPrefix(year), sequence);
    assert s == ("INV-" + Text.Digits(year)) + ['-'] + pad;
    assert '-' !in pad by {
      assert !Text.IsDigit('-');
    }
    Text.LastSegmentAfterSeparator("INV-" + Text.Digits(year), '-', pad);
    Text.ZeroPadRoundTrip(sequence, 3);
    assert s[|YearPrefix(year)|..] == pad;
  }

  /** The suggestion is in the current year's bucket and parses back to the
      sequence chosen for it. */
  lemma SuggestionShape(invoices: seq<Invoice>, today: Calendar.Day)
    ensures var prefix := YearPrefix(Calendar.FromOrdinal(today).year);
      && HasPrefix(Suggest(invoices, today), prefix)
      && SequenceOf(Suggest(invoices, today)) == Some(NextSequence(invoices, prefix))
  {
    FormatRoundTrip(Calendar.FromOrdinal(today).year, NextSequence(invoices, YearPrefix(Calendar.FromOrdinal(today).year)));
  }

  /** Saving an invoice under the suggested number (with a fresh, larger id)
      makes the next suggestion the following sequence number. */
  lemma {:induction false} AcceptedSuggestionAdvances(invoices: seq<Invoice>, today: Calendar.Day, inv: Invoice)
    requires inv.number == Suggest(invoices, today)
    requires forall other :: other in invoices ==> other.id < inv.id
    ensures var prefix := YearPrefix(Calendar.FromOrdinal(today).year);
      NextSequence(invoices + [inv], prefix) == NextSequence(invoices, prefix) + 1
  {
    var prefix := YearPrefix(Calendar.FromOrdinal(today).year);
    SuggestionShape(invoices, today);
    LastByPrefixAppendNewest(invoices, prefix, inv);
  }

  /** An invoice with a larger id than every other, carrying the prefix, is the
      last one by id. */
  lemma {:induction false} LastByPrefixAppendNewest(invoices: seq<Invoice>, prefix: string, inv: Invoice)
    requires HasPrefix(inv.number, prefix)
    requires forall other :: other in invoices ==> other.id < inv.id
    ensures LastByPrefix(invoices + [inv], prefix) == Some(inv)
  {
    if invoices == [] {
      assert [inv][1..] == [];
    } else {
      assert (invoices + [inv])[1..] == invoices[1..] + [inv];
      LastByPrefixAppendNewest(invoices[1..], prefix, inv);
      assert invoices[0] in invoices;
    }
  }

  // ---------------------------------------------------------------- examples

  lemma PrefixFor2026()
    ensures YearPrefix(2026) == "INV-2026-"
  {
    assert Text.Digits(2026) == "2026";
  }

  function Row(id: nat, number: string): Invoice
  {
    NewInvoice(id, 1, number, 1, 1, 0)
  }

  /** On any day of 2026 the suggestion is INV-2026- followed by the next sequence. */
  lemma SuggestIn2026(invoices: seq<Invoice>, date: Calendar.Ymd)
    requires Calendar.Valid(date) && date.year == 2026
    ensures Suggest(invoices, Calendar.ToOrdinal(date)) == FormatNumber("INV-2026-", NextSequence(invoices, "INV-2026-"))
  {
    Calendar.FromToOrdinal(date);
    PrefixFor2026();
  }

  lemma PrefixOfConcat(prefix: string, rest: string)
    ensures HasPrefix(prefix + rest, prefix)
  {
    assert (prefix + rest)[..|prefix|] == prefix;
  }

  /** Of two prefixed invoices the one with the larger id is the last. */
  lemma LastOfTwo(first: string, second: string)
    requires HasPrefix(first, "INV-2026-") && HasPrefix(second, "INV-2026-")
    ensures LastByPrefix([Row(1, first), Row(2, second)], "INV-2026-") == Some(Row(2, second))
  {
    var invoices := [Row(1, first), Row(2, second)];
    assert invoices[1..] == [Row(2, second)];
    assert invoices[1..][1..] == [];
  }

  /** The three-digit numbers of 2026 used in the examples below. */
  lemma Spelled2026()
    ensures FormatNumber("INV-2026-", 1) == "INV-2026-001"
    ensures FormatNumber("INV-2026-", 2) == "INV-2026-002"
    ensures FormatNumber("INV-2026-", 3) == "INV-2026-003"
  {
    assert Text.ZeroPad(1, 3) == "001";
    assert Text.ZeroPad(2, 3) == "002";
    assert Text.ZeroPad(3, 3) == "003";
  }

  /** Two invoices numbered with sequences `first` and `second`, the second
      saved last: the suggestion continues from the second. */
  lemma ContinuesFromLast(date: Calendar.Ymd, first: nat, second: nat)
    requires Calendar.Valid(date) && date.year == 2026
    ensures Suggest([Row(1, FormatNumber("INV-2026-", first)), Row(2, FormatNumber("INV-2026-", second))], Calendar.ToOrdinal(date))
            == FormatNumber("INV-2026-", second + 1)
  {
    var a, b := FormatNumber("INV-2026-", first), FormatNumber("INV-2026-", second);
    SuggestIn2026([Row(1, a), Row(2, b)], date);
    PrefixFor2026();
    FormatRoundTrip(2026, first);
    FormatRoundTrip(2026, second);
    LastOfTwo(a, b);
  }

  /** INV-2026-001 and INV-2026-002 exist: the suggestion is INV-2026-003. */
  lemma SuggestsThird(date: Calendar.Ymd)
    requires Calendar.Valid(date) && date.year == 2026
    ensures Suggest([Row(1, "INV-2026-001"), Row(2, "INV-2026-002")], Calendar.ToOrdinal(date)) == "INV-2026-003"
  {
    ContinuesFromLast(date, 1, 2);
    Spelled2026();
  }

  /** The only invoice lies outside this year's bucket: the sequence starts at 1. */
  lemma RestartsOutsideBucket(date: Calendar.Ymd, number: string)
    requires Calendar.Valid(date) && date.year == 2026
    requires !HasPrefix(number, "INV-2026-")
    ensures Suggest([Row(7, number)], Calendar.ToOrdinal(date)) == FormatNumber("INV-2026-", 1)
  {
    SuggestIn2026([Row(7, number)], date);
    assert [Row(7, number)][1..] == [];
  }

  /** The only invoice of the bucket has no numeric last segment: the sequence
      starts at 1. */
  lemma RestartsAfterUnparsable(date: Calendar.Ymd, rest: string)
    requires Calendar.Valid(date) && date.year == 2026
    requires SequenceOf("INV-2026-" + rest) == None
    ensures Suggest([Row(3, "INV-2026-" + rest)], Calendar.ToOrdinal(date)) == FormatNumber("INV-2026-", 1)
  {
    SuggestIn2026([Row(3, "INV-2026-" + rest)], date);
    PrefixOfConcat("INV-2026-", rest);
    assert [Row(3, "INV-2026-" + rest)][1..] == [];
  }

  lemma LastYearOutsideBucket()
    ensures !HasPrefix("INV-2025-041", "INV-2026-")
  {
    assert "INV-2025-041"[..9][7] != "INV-2026-"[7];
  }

  /** No invoice of the year yet (last year's numbers do not count): INV-2026-001. */
  lemma SuggestsFirst(date: Calendar.Ymd)
    requires Calendar.Valid(date) && date.year == 2026
    ensures Suggest([Row(7, "INV-2025-041")], Calendar.ToOrdinal(date)) == "INV-2026-001"
  {
    LastYearOutsideBucket();
    RestartsOutsideBucket(date, "INV-2025-041");
    Spelled2026();
  }

  /** INV-2026-X1 has no sequence number. */
  lemma NoSequenceOfLetters()
    ensures SequenceOf("INV-2026-" + "X1") == None
  {
    Text.LastSegmentAfterSeparator("INV-2026", '-', "X1");
    assert "INV-2026" + ['-'] + "X1" == "INV-2026-" + "X1";
    assert !Text.IsDigit("X1"[0]);
  }

  /** A last number whose final segment is not numeric falls back to 1. */
  lemma SuggestsFirstAfterUnparsable(date: Calendar.Ymd)
    requires Calendar.Valid(date) && date.year == 2026
    ensures Suggest([Row(3, "INV-2026-X1")], Calendar.ToOrdinal(date)) == "INV-2026-001"
  {
    NoSequenceOfLetters();
    RestartsAfterUnparsable(date, "X1");
    assert "INV-2026-" + "X1" == "INV-2026-X1";
    Spelled2026();
  }

  // ---------------------------------------------------------------- the highest-suffix allocator

  /** The largest sequence number among the prefixed invoices whose last segment
      is numeric (0 when there is none). */
  function HighestSequence(invoices: seq<Invoice>, prefix: string): (n: nat)
    ensures forall inv :: inv in invoices && HasPrefix(inv.number, prefix) && SequenceOf(inv.number).Some? ==>
              SequenceOf(inv.number).value <= n
  {
    if invoices == [] then 0
    else
      var rest := HighestSequence(invoices[1..], prefix);
      var own := if HasPrefix(invoices[0].number, prefix) && SequenceOf(invoices[0].number).Some?
                 then SequenceOf(invoices[0].number).value else 0;
      if own > rest then own else rest
  }

  /** The suggestion built from the highest existing sequence number. */
  function SuggestHighest(invoices: seq<Invoice>, today: Calendar.Day): string
  {
    var prefix := YearPrefix(Calendar.FromOrdinal(today).year);
    FormatNumber(prefix, HighestSequence(invoices, prefix) + 1)
  }

  /** The highest-suffix suggestion is never the number of an existing invoice. */
  lemma HighestSuggestionIsFresh(invoices: seq<Invoice>, today: Calendar.Day)
    ensures !NumberTaken(invoices, SuggestHighest(invoices, today))
  {
    var year := Calendar.FromOrdinal(today).year;
    var prefix := YearPrefix(year);
    var s := SuggestHighest(invoices, today);
    FormatRoundTrip(year, HighestSequence(invoices, prefix) + 1);
    forall inv | inv in invoices
      ensures inv.number != s
    {
      if HasPrefix(inv.number, prefix) && SequenceOf(inv.number).Some? {
        assert SequenceOf(inv.number).value <= HighestSequence(invoices, prefix);
      }
    }
  }

  /** The last-by-id suggestion can repeat a number in use: when INV-2026-003
      was saved before INV-2026-002, it is suggested again. */
  lemma SuggestionCanRepeat(date: Calendar.Ymd)
    requires Calendar.Valid(date) && date.year == 2026
    ensures var invoices := [Row(1, "INV-2026-003"), Row(2, "INV-2026-002")];
      && Suggest(invoices, Calendar.ToOrdinal(date)) == "INV-2026-003"
      && NumberTaken(invoices, Suggest(invoices, Calendar.ToOrdinal(date)))
  {
    ContinuesFromLast(date, 3, 2);
    Spelled2026();
    var invoices := [Row(1, "INV-2026-003"), Row(2, "INV-2026-002")];
    assert invoices[0] in invoices;
  }
}
