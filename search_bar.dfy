/**
 * The search bar's submit: the free-text guests field ("X Room(s), Y
 * Guest(s)") is read into a room count and a guest count, and the search
 * page is opened with the query, the dates and both counts.
 */
module SearchBar {
  import opened Wrappers
  import opened Text

  const DefaultGuests := "1 Room, 1 Guest"

  /** `guests.split(",").map(s => s.trim())`. */
  function GuestParts(guests: string): (parts: seq<string>)
    ensures |parts| == |Split(guests, ',')| >= 1
    ensures forall i :: 0 <= i < |parts| ==> parts[i] == Trim(Split(guests, ',')[i])
  {
    var raw := Split(guests, ',');
    seq(|raw|, i requires 0 <= i < |raw| => Trim(raw[i]))
  }

  /** `part?.match(/\d+/)` read with `parseInt(..., 10)`, or 1 when the part is missing or has no digit. */
  function CountOf(part: Option<string>): nat {
    if part.None? then 1
    else
      var run := FirstDigitRun(part.value);
      if run.Some? then DigitsValue(run.value) else 1
  }

  /** The rooms and guests read from the field. */
  function ParseGuests(guests: string): (nat, nat) {
    var parts := GuestParts(guests);
    (CountOf(Some(parts[0])), CountOf(if |parts| > 1 then Some(parts[1]) else None))
  }

  /** `new URLSearchParams({ q, dates, rooms, guests })`, before percent-encoding. */
  function SearchQuery(q: string, dates: string, guests: string): (params: seq<(string, string)>)
    ensures |params| == 4
    ensures params[0] == ("q", q) && params[1] == ("dates", dates)
    ensures params[2] == ("rooms", NatToString(ParseGuests(guests).0))
    ensures params[3] == ("guests", NatToString(ParseGuests(guests).1))
  {
    var counts := ParseGuests(guests);
    [("q", q), ("dates", dates), ("rooms", IntToString(counts.0)), ("guests", IntToString(counts.1))]
  }

  /** The counts read straight from the untrimmed parts. */
  function RawCounts(raw: seq<string>): (nat, nat)
    requires |raw| >= 1
  {
    (CountOf(Some(raw[0])), CountOf(if |raw| > 1 then Some(raw[1]) else None))
  }

  /** Each count is read from its own part, with or without the white space around it. */
  lemma CountsIgnoreSpaces(guests: string)
    ensures ParseGuests(guests) == RawCounts(Split(guests, ','))
  {
    var raw := Split(guests, ',');
    var parts := GuestParts(guests);
    assert |parts| == |raw|;
    assert parts[0] == Trim(raw[0]);
    CountOfTrim(raw[0]);
    if |raw| > 1 {
      assert parts[1] == Trim(raw[1]);
      CountOfTrim(raw[1]);
    }
  }

  lemma CountOfTrim(s: string)
    ensures CountOf(Some(Trim(s))) == CountOf(Some(s))
  {
    TrimKeepsDigitRun(s);
  }

  /** Only the first two comma-separated parts are read. */
  lemma ExtraPartsIgnored(a: string, b: string, c: string)
    requires ',' !in a && ',' !in b
    ensures ParseGuests(a + "," + b + "," + c) == ParseGuests(a + "," + b)
  {
    var long := a + "," + b + "," + c;
    var short := a + "," + b;
    assert long == a + [','] + (b + [','] + c);
    assert short == a + [','] + b;
    SplitAfterFirst(a, ',', b + [','] + c);
    SplitAfterFirst(b, ',', c);
    SplitTwo(a, b);
    var rl := Split(long, ',');
    var rs := Split(short, ',');
    assert rl == [a] + ([b] + Split(c, ','));
    assert rs == [a] + [b];
    assert |rl| > 1 && |rs| > 1 && rl[0] == rs[0] && rl[1] == rs[1];
    CountsIgnoreSpaces(long);
    CountsIgnoreSpaces(short);
  }

  /**
   * A label of the form "<rooms><word>, <guests><word>" reads back as the
   * two numbers, whatever words follow them (as long as they hold no digit
   * and no comma).
   */
  lemma LabelRoundTrip(rooms: nat, guests: nat, roomWord: string, guestWord: string)
    requires NoDigits(roomWord) && ',' !in roomWord
    requires NoDigits(guestWord) && ',' !in guestWord
    ensures ParseGuests(NatToString(rooms) + roomWord + ", " + NatToString(guests) + guestWord) == (rooms, guests)
  {
    NumberHasNoComma(rooms);
    NumberHasNoComma(guests);
    LabelSplits(NatToString(rooms), roomWord, NatToString(guests), guestWord);
    NumberThenWord(rooms, roomWord);
    SpaceNumberThenWord(guests, guestWord);
  }

  /** A label with two comma-free halves is read half by half. */
  lemma LabelSplits(r: string, roomWord: string, g: string, guestWord: string)
    requires ',' !in r && ',' !in roomWord && ',' !in g && ',' !in guestWord
    ensures ParseGuests(r + roomWord + ", " + g + guestWord) == (CountOf(Some(r + roomWord)), CountOf(Some(" " + g + guestWord)))
  {
    var first := r + roomWord;
    var second := " " + g + guestWord;
    var text := r + roomWord + ", " + g + guestWord;
    assert text == first + [','] + second;
    SplitTwo(first, second);
    CountsIgnoreSpaces(text);
  }

  lemma SplitTwo(a: string, b: string)
    requires ',' !in a && ',' !in b
    ensures Split(a + [','] + b, ',') == [a, b]
  {
    SplitAfterFirst(a, ',', b);
    SplitNoSeparator(b, ',');
  }

  lemma NumberHasNoComma(n: nat)
    ensures ',' !in NatToString(n)
  {
    var r := NatToString(n);
    forall k | 0 <= k < |r| ensures r[k] != ',' {
      assert IsDigit(r[k]);
    }
  }

  lemma SpaceNumberThenWord(n: nat, word: string)
    requires NoDigits(word)
    ensures CountOf(Some(" " + NatToString(n) + word)) == n
  {
    assert " " + NatToString(n) + word == " " + (NatToString(n) + word);
    FirstDigitRunSkip(" ", NatToString(n) + word);
    NumberThenWord(n, word);
  }

  /** A number followed by a word without digits reads as that number. */
  lemma NumberThenWord(n: nat, word: string)
    requires NoDigits(word)
    ensures CountOf(Some(NatToString(n) + word)) == n
  {
    var r := NatToString(n);
    FirstDigitRunTail(r, word);
    TakeDigitsConcat(r, []);
    assert r + [] == r;
    assert FirstDigitRun(r) == Some(r);
    NatToStringValue(n);
  }

  /** The initial field reads as one room and one guest. */
  lemma DefaultIsOneAndOne()
    ensures ParseGuests(DefaultGuests) == (1, 1)
  {
    assert NatToString(1) == "1";
    assert DefaultGuests == NatToString(1) + " Room" + ", " + NatToString(1) + " Guest";
    LabelRoundTrip(1, 1, " Room", " Guest");
  }

  /** An explicit 0 is read as 0 rooms: the default applies only when there is no digit; the missing guests part gives 1. */
  lemma ZeroIsKept()
    ensures ParseGuests("0") == (0, 1)
  {
    SplitNoSeparator("0", ',');
    TrimWithoutSpace("0");
    assert FirstDigitRun("0") == Some("0");
  }
}
