/**
 The bounded transcript of a session: of all its entries, read page by page, the longest tail that
 fits the limit is kept, and the rest is counted.
 */
module Transcripts {
  import opened Options

  const TRANSCRIPT_LIMIT: nat := 96_000

  function Sum(entries: seq<string>): nat { if entries == [] then 0 else |entries[0]| + Sum(entries[1..]) }

  /** The length of the entries joined by blank lines. */
  function Joined(entries: seq<string>): nat { Sum(entries) + if entries == [] then 0 else 2 * (|entries| - 1) }

  predicate Fits(entries: seq<string>) { Joined(entries) <= TRANSCRIPT_LIMIT }

  /** Entries are dropped from the front until the rest fits or one is left. */
  function Tail(entries: seq<string>): (kept: seq<string>)
    ensures |kept| <= |entries|
  {
    if |entries| <= 1 || Fits(entries) then entries else Tail(entries[1..])
  }

  function Text(entries: seq<string>): string {
    if entries == [] then "" else if |entries| == 1 then entries[0] else entries[0] + "\n\n" + Text(entries[1..])
  }

  lemma {:induction false} TextLength(entries: seq<string>)
    ensures |Text(entries)| == Joined(entries)
  {
    if |entries| == 1 {
      assert entries[1..] == [] && Sum(entries) == |entries[0]|;
    } else if |entries| > 1 {
      TextLength(entries[1..]);
      assert |Text(entries)| == |entries[0]| + 2 + |Text(entries[1..])|;
    }
  }

  // --- The longest fitting tail ----------------------------------------------------------------------------

  lemma {:induction false} SumAdd(a: seq<string>, b: seq<string>)
    ensures Sum(a + b) == Sum(a) + Sum(b)
  {
    if a == [] {
      assert a + b == b;
    } else {
      assert (a + b)[1..] == a[1..] + b;
      SumAdd(a[1..], b);
    }
  }

  /** How many entries are dropped. */
  lemma {:induction false} TailIsASuffix(entries: seq<string>) returns (k: nat)
    ensures k <= |entries| && Tail(entries) == entries[k..]
    ensures Fits(entries[k..]) || |entries[k..]| <= 1
    ensures forall i | 0 <= i < k :: !Fits(entries[i..])
    ensures k == |entries| <==> entries == []
  {
    if |entries| <= 1 || Fits(entries) {
      k := 0;
      assert entries[0..] == entries;
    } else {
      var m := TailIsASuffix(entries[1..]);
      k := m + 1;
      assert entries[1..][m..] == entries[k..];
      forall i | 0 <= i < k ensures !Fits(entries[i..]) {
        if i == 0 { assert entries[0..] == entries; } else { assert entries[i..] == entries[1..][i - 1..]; }
      }
    }
  }

  /** No longer tail fits; and what is kept fits, unless it is the last entry alone. */
  lemma TailIsTheLongestThatFits(entries: seq<string>, i: nat)
    requires i <= |entries|
    ensures Tail(entries) != [] || entries == []
    ensures |Tail(entries)| <= |entries| && Tail(entries) == entries[|entries| - |Tail(entries)|..]
    ensures Fits(Tail(entries)) || |Tail(entries)| == 1
    ensures Fits(entries[i..]) ==> |entries[i..]| <= |Tail(entries)|
  {
    var k := TailIsASuffix(entries);
    if |entries[k..]| == 0 { assert entries == []; }
  }

  // --- Pages do not matter -------------------------------------------------------------------------------------

  /** One more entry can be added to what was kept as if nothing had been dropped. */
  lemma {:induction false} TailAbsorbs(entries: seq<string>, more: seq<string>)
    ensures Tail(Tail(entries) + more) == Tail(entries + more)
  {
    if |entries| > 1 && !Fits(entries) {
      var all := entries + more;
      assert all[1..] == entries[1..] + more;
      TailAbsorbs(entries[1..], more);
      SumAdd(entries, more);
      assert !Fits(all);
    }
  }

  /** What one page contributes: the items that have an entry. */
  function Entries(items: seq<Option<string>>): seq<string> {
    if items == [] then [] else (if items[0].Some? then [items[0].value] else []) + Entries(items[1..])
  }

  function AllEntries(pages: seq<seq<Option<string>>>): seq<string> {
    if pages == [] then [] else Entries(pages[0]) + AllEntries(pages[1..])
  }

  // --- What is rendered --------------------------------------------------------------------------------

  function Decimal(n: nat): string {
    if n < 10 then ["0123456789"[n]] else Decimal(n / 10) + ["0123456789"[n % 10]]
  }

  /** The note in front of the kept entries, if any were omitted. */
  function Note(earlier: nat): string {
    if earlier == 0 then [] else "[" + Decimal(earlier) + " earlier entries omitted]\n\n"
  }

  /** The last characters of a text, as many as the limit allows. */
  function Cut(text: string): (kept: string)
    ensures |kept| <= TRANSCRIPT_LIMIT
  {
    if |text| > TRANSCRIPT_LIMIT then text[|text| - TRANSCRIPT_LIMIT..] else text
  }

  /** Only a lone entry is ever cut, and what is kept of it is its end, exactly as long as the limit. */
  lemma OnlyALoneEntryIsCut(all: seq<string>)
    ensures var kept := Cut(Text(Tail(all)));
            kept == Text(Tail(all))
            || (|Tail(all)| == 1 && |kept| == TRANSCRIPT_LIMIT < |Tail(all)[0]|
                && kept == Tail(all)[0][|Tail(all)[0]| - TRANSCRIPT_LIMIT..])
  {
    TextLength(Tail(all));
    TailIsTheLongestThatFits(all, 0);
  }

  /** The text rendered from all the entries there are. */
  function Rendered(all: seq<string>): string { Note(|all| - |Tail(all)|) + Cut(Text(Tail(all))) }

  predicate Digits(text: string) { forall i | 0 <= i < |text| :: '0' <= text[i] <= '9' }

  /** The number that decimal digits stand for. */
  function Number(digits: string): nat
    requires Digits(digits)
    decreases |digits|
  {
    if digits == "" then 0
    else 10 * Number(digits[..|digits| - 1]) + (digits[|digits| - 1] as int - '0' as int)
  }

  lemma {:induction false} DecimalReadsBack(n: nat)
    ensures Digits(Decimal(n)) && Number(Decimal(n)) == n
  {
    var digits := Decimal(n);
    if n >= 10 {
      DecimalReadsBack(n / 10);
      assert digits[..|digits| - 1] == Decimal(n / 10);
    } else {
      assert digits[..0] == "";
    }
  }

  /** The text is the longest tail that fits, and says of how many entries it is not. */
  lemma RenderingSaysWhatIsMissing(all: seq<string>) returns (digits: string)
    ensures |Tail(all)| == |all| ==> Rendered(all) == Cut(Text(all))
    ensures Digits(digits)
    ensures |Tail(all)| < |all| ==>
              Number(digits) == |all| - |Tail(all)|
              && Rendered(all) == "[" + digits + " earlier entries omitted]\n\n" + Cut(Text(Tail(all)))
  {
    digits := Decimal(|all| - |Tail(all)|);
    DecimalReadsBack(|all| - |Tail(all)|);
    TailIsTheLongestThatFits(all, 0);
    if |Tail(all)| == |all| { assert Tail(all) == all && [] + Cut(Text(all)) == Cut(Text(all)); }
  }

  /** Two or more entries that do not fit together beside the note of how many of them are omitted. */
  predicate NoteTooMuch(all: seq<string>) {
    && |all| >= 2 && !Fits(all)
    && Joined(Tail(all)) + |Note(|all| - |Tail(all)|)| > TRANSCRIPT_LIMIT
  }

  lemma SomethingIsOmittedIff(all: seq<string>)
    ensures |Tail(all)| < |all| <==> |all| >= 2 && !Fits(all)
  {
    TailIsTheLongestThatFits(all, 0);
    assert all[0..] == all;
    if |all| >= 2 && !Fits(all) { TailIsTheLongestThatFits(all[1..], 0); }
  }

  /**
   The note is not counted. Entries are omitted exactly if there are two or more and they do not fit, and the
   text is over the limit exactly if some are and the longest fitting tail has no room for the note before it.
   */
  lemma TextFitsUnlessNoted(all: seq<string>)
    ensures |Tail(all)| < |all| <==> |all| >= 2 && !Fits(all)
    ensures |Rendered(all)| > TRANSCRIPT_LIMIT <==> NoteTooMuch(all)
  {
    SomethingIsOmittedIff(all);
    TextLength(Tail(all));
  }

  /** A long entry behind a short one is kept whole, and the note makes the text longer than the limit. */
  lemma NotedTextsCanBeTooLong(short: string, long: string)
    requires |short| >= 1 && |long| == TRANSCRIPT_LIMIT
    ensures Cut(Text(Tail([short, long]))) == long && |Rendered([short, long])| > TRANSCRIPT_LIMIT
  {
    var all := [short, long];
    assert all[1..] == [long] && [long][1..] == [];
    assert Sum([long]) == |long| + Sum([]);
    assert Sum(all) == |short| + Sum([long]);
    assert Tail(all) == [long];
    assert Text([long]) == long;
  }

  /** The builder in place. */
  class TranscriptBuilder {
    var entries: seq<string>
    var total: nat
    var omitted: nat
    /** Everything ever added, kept or not. */
    ghost var all: seq<string>

    ghost predicate Valid()
      reads this
    {
      total == Sum(entries) && entries == Tail(all) && omitted + |entries| == |all|
    }

    constructor ()
      ensures Valid() && all == []
    {
      entries, total, omitted, all := [], 0, 0, [];
    }

    method Keep(entry: string)
      requires Valid()
      modifies this
      ensures Valid() && all == old(all) + [entry]
    {
      ghost var before := entries;
      TailAbsorbs(all, [entry]);
      SumAdd(entries, [entry]);
      entries := entries + [entry];
      total := total + |entry|;
      all := all + [entry];
      while total + 2 * (if |entries| > 0 then |entries| - 1 else 0) > TRANSCRIPT_LIMIT && |entries| > 1
        invariant entries != [] && total == Sum(entries) && omitted + |entries| == |all|
        invariant Tail(entries) == Tail(all) && all == old(all) + [entry]
        decreases |entries|
      {
        total := total - |entries[0]|;
        entries := entries[1..];
        omitted := omitted + 1;
      }
    }

    /** Adds one page of items; those without an entry are passed over. */
    method Add(items: seq<Option<string>>)
      requires Valid()
      modifies this
      ensures Valid() && all == old(all) + Entries(items)
    {
      var i := 0;
      assert items[0..] == items && all + [] == all;
      while i < |items|
        invariant 0 <= i <= |items| && Valid()
        invariant all + Entries(items[i..]) == old(all) + Entries(items)
      {
        assert items[i..][1..] == items[i + 1..];
        if items[i].Some? {
          assert all + ([items[i].value] + Entries(items[i + 1..])) == (all + [items[i].value]) + Entries(items[i + 1..]);
          Keep(items[i].value);
        } else {
          assert [] + Entries(items[i + 1..]) == Entries(items[i + 1..]);
        }
        i := i + 1;
      }
      assert all + [] == all;
    }

    /** The kept entries joined and cut to the limit from the back, behind a note of how many were omitted. */
    method Render() returns (text: string)
      requires Valid()
      ensures text == Rendered(all)
    {
      text := Text(entries);
      if |text| > TRANSCRIPT_LIMIT { text := text[|text| - TRANSCRIPT_LIMIT..]; }
      assert omitted == |all| - |Tail(all)| && text == Cut(Text(Tail(all)));
      if omitted > 0 { text := Note(omitted) + text; } else { assert [] + text == text; }
    }
  }

  /** However the items come in pages: what is kept is the longest fitting tail of them all. */
  method BuildTranscript(pages: seq<seq<Option<string>>>) returns (entries: seq<string>, omitted: nat)
    ensures entries == Tail(AllEntries(pages)) && omitted + |entries| == |AllEntries(pages)|
  {
    var builder := new TranscriptBuilder();
    var i := 0;
    assert pages[0..] == pages && [] + AllEntries(pages) == AllEntries(pages);
    while i < |pages|
      invariant 0 <= i <= |pages| && builder.Valid() && fresh(builder)
      invariant builder.all + AllEntries(pages[i..]) == AllEntries(pages)
    {
      assert pages[i..][1..] == pages[i + 1..];
      assert builder.all + (Entries(pages[i]) + AllEntries(pages[i + 1..]))
             == (builder.all + Entries(pages[i])) + AllEntries(pages[i + 1..]);
      builder.Add(pages[i]);
      i := i + 1;
    }
    assert builder.all + [] == builder.all;
    return builder.entries, builder.omitted;
  }
}
