/** The booking store of `useBookings.tsx`: an append-only list of bookings mirrored to the
    session-storage key 'ridewise-bookings', and the confirmation-code generator. The clock
    (`Date.now()`, `new Date().toISOString()`) and the random source (`Math.random()`) are
    parameters. */
module Bookings {
  import opened Seqs
  import opened Text

  /** What the caller supplies: a booking without `id`, `confirmationId` and `createdAt`. */
  datatype BookingRequest = BookingRequest(
    bikeType: string, bikeName: string, date: string, timeSlot: string,
    duration: string, totalFare: int, username: string)

  datatype Booking = Booking(
    id: string, bikeType: string, bikeName: string, date: string, timeSlot: string,
    duration: string, totalFare: int, confirmationId: string, username: string,
    createdAt: string)

  /** The caller-supplied part of a booking. */
  function RequestOf(b: Booking): BookingRequest {
    BookingRequest(b.bikeType, b.bikeName, b.date, b.timeSlot, b.duration, b.totalFare, b.username)
  }

  /** `{ ...bookingData, id, confirmationId, createdAt }`. */
  function MakeBooking(data: BookingRequest, id: string, confirmationId: string, createdAt: string): (b: Booking)
    ensures RequestOf(b) == data
    ensures b.id == id && b.confirmationId == confirmationId && b.createdAt == createdAt
  {
    Booking(id, data.bikeType, data.bikeName, data.date, data.timeSlot, data.duration,
            data.totalFare, confirmationId, data.username, createdAt)
  }

  const Alphabet := "ABCDEFGHIJKLMNOPQRSTUVWXYZ0123456789"
  const CodePrefix := "RW-"
  const CodeLength := 8

  /** A character of the code alphabet: an upper-case ASCII letter or a decimal digit. */
  predicate IsCodeChar(c: char) {
    IsUpper(c) || IsDigit(c)
  }

  /** The alphabet holds exactly the code characters, letters first. */
  lemma AlphabetAt(k: nat)
    requires k < |Alphabet|
    ensures IsCodeChar(Alphabet[k])
    ensures k < 26 ==> Alphabet[k] as int == 'A' as int + k
    ensures k >= 26 ==> Alphabet[k] as int == '0' as int + k - 26
  {
  }

  /** The pattern `RW-[A-Z0-9]{8}`. */
  predicate WellFormedCode(s: string) {
    |s| == |CodePrefix| + CodeLength && s[..|CodePrefix|] == CodePrefix &&
    forall i :: |CodePrefix| <= i < |s| ==> IsCodeChar(s[i])
  }

  /** A value `Math.random()` can return. */
  predicate IsDraw(x: real) {
    0.0 <= x < 1.0
  }

  /** `Math.floor(x * chars.length)`. */
  function PickIndex(x: real): (k: nat)
    requires IsDraw(x)
    ensures k < |Alphabet|
    ensures k as real <= x * 36.0 < k as real + 1.0
  {
    (x * 36.0).Floor
  }

  /** The characters the draws select, one per draw. */
  function CodeChars(draws: seq<real>): (r: string)
    requires forall i :: 0 <= i < |draws| ==> IsDraw(draws[i])
    ensures |r| == |draws|
    ensures forall i :: 0 <= i < |r| ==> r[i] == Alphabet[PickIndex(draws[i])]
  {
    seq(|draws|, i requires 0 <= i < |draws| => Alphabet[PickIndex(draws[i])])
  }

  function ConfirmationCode(draws: seq<real>): string
    requires forall i :: 0 <= i < |draws| ==> IsDraw(draws[i])
  {
    CodePrefix + CodeChars(draws)
  }

  /** `generateConfirmationId`, with the eight `Math.random()` values as `draws`. */
  method GenerateConfirmationId(draws: seq<real>) returns (result: string)
    requires |draws| == CodeLength
    requires forall i :: 0 <= i < |draws| ==> IsDraw(draws[i])
    ensures result == ConfirmationCode(draws)
    ensures WellFormedCode(result)
  {
    result := CodePrefix;
    for i := 0 to CodeLength
      invariant |result| == |CodePrefix| + i
      invariant result[..|CodePrefix|] == CodePrefix
      invariant forall k :: |CodePrefix| <= k < |result| ==> result[k] == Alphabet[PickIndex(draws[k - |CodePrefix|])]
    {
      result := result + [Alphabet[PickIndex(draws[i])]];
    }
    forall k | |CodePrefix| <= k < |result| ensures IsCodeChar(result[k]) {
      AlphabetAt(PickIndex(draws[k - |CodePrefix|]));
    }
  }

  /** The position of a code character in the alphabet. */
  function AlphabetIndex(c: char): (k: nat)
    requires IsCodeChar(c)
    ensures k < |Alphabet| && Alphabet[k] == c
  {
    var k := if IsUpper(c) then c as int - 'A' as int else 26 + c as int - '0' as int;
    AlphabetAt(k);
    k
  }

  /** A draw that selects a given code character. */
  function DrawFor(c: char): (x: real)
    requires IsCodeChar(c)
    ensures IsDraw(x) && x * 36.0 == AlphabetIndex(c) as real
  {
    AlphabetIndex(c) as real / 36.0
  }

  /** Draws that produce a given code. */
  function DrawsFor(code: string): (draws: seq<real>)
    requires WellFormedCode(code)
    ensures |draws| == CodeLength
    ensures forall i :: 0 <= i < |draws| ==> draws[i] == DrawFor(code[|CodePrefix| + i])
    ensures forall i :: 0 <= i < |draws| ==> IsDraw(draws[i])
  {
    seq(CodeLength, i requires 0 <= i < CodeLength => DrawFor(code[|CodePrefix| + i]))
  }

  /** Every code of the pattern can be generated: the generator's range is exactly
      `RW-[A-Z0-9]{8}`. */
  lemma EveryCodeReachable(code: string)
    requires WellFormedCode(code)
    ensures ConfirmationCode(DrawsFor(code)) == code
  {
    var draws := DrawsFor(code);
    var chars := CodeChars(draws);
    forall i | 0 <= i < CodeLength ensures chars[i] == code[|CodePrefix| + i] {
      var c := code[|CodePrefix| + i];
      assert draws[i] == DrawFor(c);
      assert PickIndex(draws[i]) == AlphabetIndex(c);
    }
    assert code == code[..|CodePrefix|] + code[|CodePrefix|..];
  }

  /** The booking store. Field `stored` is the value of the session-storage key
      'ridewise-bookings'. */
  class BookingStore {
    var bookings: seq<Booking>
    var stored: Option<seq<Booking>>

    /** `getTotalBookings`. */
    function TotalBookings(): (n: nat)
      reads this
      ensures n == |bookings|
    {
      |bookings|
    }

    /** Mounting the provider: an empty list, replaced by what 'ridewise-bookings' holds. */
    constructor (saved: Option<seq<Booking>>)
      ensures bookings == (if saved.Some? then saved.value else [])
      ensures stored == saved
    {
      bookings := [];
      stored := saved;
      if saved.Some? {
        bookings := saved.value;
      }
    }

    /** `addBooking`; `now` is `Date.now()`, `nowIso` is `new Date().toISOString()`. */
    method AddBooking(data: BookingRequest, now: nat, nowIso: string, draws: seq<real>) returns (b: Booking)
      requires |draws| == CodeLength
      requires forall i :: 0 <= i < |draws| ==> IsDraw(draws[i])
      modifies this
      ensures b == MakeBooking(data, DecimalString(now), ConfirmationCode(draws), nowIso)
      ensures RequestOf(b) == data && WellFormedCode(b.confirmationId)
      ensures bookings == old(bookings) + [b] && b == bookings[|bookings| - 1]
      ensures stored == Some(bookings)
      ensures TotalBookings() == old(TotalBookings()) + 1
    {
      var confirmationId := GenerateConfirmationId(draws);
      b := MakeBooking(data, DecimalString(now), confirmationId, nowIso);
      var updated := bookings + [b];
      bookings := updated;
      stored := Some(updated);
    }
  }

  /** Three bookings in a fresh session give a count of three, each carrying a
      well-formed code. */
  method ThreeBookings(data: BookingRequest, now: nat, nowIso: string, draws: seq<real>)
    returns (total: nat, codes: seq<string>)
    requires |draws| == 3 * CodeLength
    requires forall i :: 0 <= i < |draws| ==> IsDraw(draws[i])
    ensures total == 3 && |codes| == 3
    ensures forall i :: 0 <= i < 3 ==> WellFormedCode(codes[i])
  {
    var store := new BookingStore(None);
    var b1 := store.AddBooking(data, now, nowIso, draws[..8]);
    var b2 := store.AddBooking(data, now + 1, nowIso, draws[8..16]);
    var b3 := store.AddBooking(data, now + 2, nowIso, draws[16..]);
    total := store.TotalBookings();
    codes := [b1.confirmationId, b2.confirmationId, b3.confirmationId];
  }
}
