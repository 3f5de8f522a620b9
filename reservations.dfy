/** The reservation wizard of `Reservations.tsx`: pick a bike (step 1), a date and a time
    slot (step 2), review and confirm (step 3), then the confirmation view until
    "Book Another Ride". Each handler is modelled as a method of `Wizard`; a handler whose
    control is not on screen in the current view changes nothing. */
module Reservations {
  import opened Seqs
  import opened Identity
  import opened Text
  import opened Bookings

  /** An entry of the bike catalogue: its id, display name and hourly price. */
  datatype Bike = Bike(id: string, name: string, price: int)

  /** `bikeTypes`, in display order. */
  const Catalogue: seq<Bike> := [
    Bike("basic", "Basic Bike", 5),
    Bike("premium", "Premium Bike", 12),
    Bike("electric", "Electric Bike", 20)
  ]

  /** `timeSlots`: the hourly slots from 08:00 AM to 07:00 PM. */
  const TimeSlots: seq<string> := [
    "08:00 AM", "09:00 AM", "10:00 AM", "11:00 AM",
    "12:00 PM", "01:00 PM", "02:00 PM", "03:00 PM",
    "04:00 PM", "05:00 PM", "06:00 PM", "07:00 PM"
  ]

  const RideDuration := "1 hour"

  /** No two catalogue entries share an id, so a lookup by id is unambiguous. */
  lemma CatalogueIdsDistinct()
    ensures forall i, j :: 0 <= i < j < |Catalogue| ==> Catalogue[i].id != Catalogue[j].id
  {
    assert Catalogue[0].id[0] == 'b' && Catalogue[1].id[0] == 'p' && Catalogue[2].id[0] == 'e';
  }

  /** Every time slot is non-empty, so picking one enables "Continue". */
  lemma TimeSlotsNonEmpty()
    ensures forall i :: 0 <= i < |TimeSlots| ==> TimeSlots[i] != ""
  {
    forall i | 0 <= i < |TimeSlots| ensures TimeSlots[i] != "" {
      assert |TimeSlots[i]| == 8;
    }
  }

  /** `bikeTypes.find(b => b.id === selectedBike)`, as a catalogue index. */
  function FindBike(selected: Option<string>): (r: Option<nat>)
    ensures r.Some? ==> r.value < |Catalogue| && selected == Some(Catalogue[r.value].id)
    ensures r.None? <==> forall k :: 0 <= k < |Catalogue| ==> selected != Some(Catalogue[k].id)
  {
    FindIndex(Catalogue, (b: Bike) => selected == Some(b.id))
  }

  /** The request `handleConfirm` hands to `addBooking`, or None when it returns early
      (no catalogue bike selected, or nobody logged in). */
  function ConfirmRequest(selectedBike: Option<string>, date: string, time: string,
                          user: Option<User>): (r: Option<BookingRequest>)
    ensures r.Some? <==> FindBike(selectedBike).Some? && user.Some?
    ensures r.Some? ==>
      && Some(r.value.bikeType) == selectedBike
      && r.value.date == date && r.value.timeSlot == time
      && r.value.duration == RideDuration
      && r.value.username == user.value.username
      && exists k :: 0 <= k < |Catalogue| &&
           Catalogue[k] == Bike(r.value.bikeType, r.value.bikeName, r.value.totalFare)
  {
    match FindBike(selectedBike)
    case None => None
    case Some(k) =>
      if user.None? then None
      else
        var bike := Catalogue[k];
        Some(BookingRequest(bike.id, bike.name, date, time, RideDuration, bike.price,
                            user.value.username))
  }

  /** The fare of a confirmed booking is the hourly price of the chosen bike: 5, 12 or 20. */
  lemma ConfirmedFare(id: string, date: string, time: string, user: User)
    requires ConfirmRequest(Some(id), date, time, Some(user)).Some?
    ensures var r := ConfirmRequest(Some(id), date, time, Some(user)).value;
      && r.totalFare in {5, 12, 20}
      && (id == "basic" ==> r.totalFare == 5 && r.bikeName == "Basic Bike")
      && (id == "premium" ==> r.totalFare == 12 && r.bikeName == "Premium Bike")
      && (id == "electric" ==> r.totalFare == 20 && r.bikeName == "Electric Bike")
  {
    CatalogueIdsDistinct();
  }

  /** Exactly the three catalogue ids can be confirmed. */
  lemma ConfirmableIds(id: string, date: string, time: string, user: User)
    ensures ConfirmRequest(Some(id), date, time, Some(user)).Some? <==>
      id == "basic" || id == "premium" || id == "electric"
  {
    if id == "basic" || id == "premium" || id == "electric" {
      assert id == Catalogue[0].id || id == Catalogue[1].id || id == Catalogue[2].id;
    }
  }

  /** The wizard's state. */
  class Wizard {
    var step: int
    var selectedBike: Option<string>
    var selectedDate: string
    var selectedTime: Option<string>
    var showConfirmation: bool
    var lastBooking: Option<Booking>

    /** Step 2 and later have a bike; step 3 has a date and a time; the confirmation view
        belongs to step 3 and shows a booking. */
    ghost predicate Valid()
      reads this
    {
      && 1 <= step <= 3
      && (step >= 2 ==> selectedBike.Some?)
      && (step == 3 ==> selectedDate != "" && selectedTime.Some? && selectedTime.value != "")
      && (showConfirmation ==> step == 3 && lastBooking.Some?)
    }

    /** The state the page mounts in and returns to after "Book Another Ride". */
    predicate Initial()
      reads this
    {
      && step == 1 && selectedBike == None && selectedDate == "" && selectedTime == None
      && !showConfirmation && lastBooking == None
    }

    /** The booking "Confirm Booking" would request for `user` in the current state, or
        None when the review step is not on screen or `handleConfirm` would return early. */
    function Pending(user: Option<User>): (r: Option<BookingRequest>)
      reads this
      ensures r.Some? ==> step == 3 && !showConfirmation
      ensures r.Some? ==> r.value.duration == RideDuration && r.value.date == selectedDate
    {
      if step == 3 && !showConfirmation && selectedTime.Some? then
        ConfirmRequest(selectedBike, selectedDate, selectedTime.value, user)
      else None
    }

    constructor ()
      ensures Valid() && Initial()
    {
      step := 1;
      selectedBike := None;
      selectedDate := "";
      selectedTime := None;
      showConfirmation := false;
      lastBooking := None;
    }

    /** `handleBikeSelect`, on a card of step 1: the bike is chosen and step 2 opens. */
    method SelectBike(bikeId: string)
      requires Valid()
      modifies this
      ensures Valid()
      ensures if old(step) == 1 && !old(showConfirmation) then
          step == 2 && selectedBike == Some(bikeId)
        else
          step == old(step) && selectedBike == old(selectedBike)
      ensures selectedDate == old(selectedDate) && selectedTime == old(selectedTime)
      ensures showConfirmation == old(showConfirmation) && lastBooking == old(lastBooking)
    {
      if step == 1 && !showConfirmation {
        selectedBike := Some(bikeId);
        step := 2;
      }
    }

    /** The date input of step 2. */
    method SetDate(date: string)
      requires Valid()
      modifies this`selectedDate
      ensures Valid()
      ensures selectedDate == (if step == 2 && !showConfirmation then date else old(selectedDate))
    {
      if step == 2 && !showConfirmation {
        selectedDate := date;
      }
    }

    /** A time-slot button of step 2. */
    method SetTime(time: string)
      requires Valid()
      modifies this`selectedTime
      ensures Valid()
      ensures selectedTime == (if step == 2 && !showConfirmation then Some(time) else old(selectedTime))
    {
      if step == 2 && !showConfirmation {
        selectedTime := Some(time);
      }
    }

    /** "Back": step 2 returns to step 1 and step 3 to step 2, keeping every choice. */
    method Back()
      requires Valid()
      modifies this`step
      ensures Valid()
      ensures step == (if (old(step) == 2 || old(step) == 3) && !showConfirmation then old(step) - 1 else old(step))
    {
      if (step == 2 || step == 3) && !showConfirmation {
        step := step - 1;
      }
    }

    /** "Continue" of step 2, enabled only once a date and a time are chosen. */
    method Continue()
      requires Valid()
      modifies this`step
      ensures Valid()
      ensures step == 3 <==>
        old(step) == 3 ||
        (old(step) == 2 && !showConfirmation && selectedDate != "" &&
         selectedTime.Some? && selectedTime.value != "")
      ensures step == 3 || step == old(step)
    {
      if step == 2 && !showConfirmation && selectedDate != "" &&
         selectedTime.Some? && selectedTime.value != "" {
        step := 3;
      }
    }

    /** `handleConfirm`: adds the pending booking to the store and shows the confirmation;
        with no pending booking nothing changes. `now`, `nowIso` and `draws` are the clock
        and random values `addBooking` reads. */
    method Confirm(user: Option<User>, store: BookingStore, now: nat, nowIso: string, draws: seq<real>)
      requires Valid()
      requires |draws| == CodeLength && forall i :: 0 <= i < |draws| ==> IsDraw(draws[i])
      modifies this, store
      ensures Valid()
      ensures step == old(step) && selectedBike == old(selectedBike)
      ensures selectedDate == old(selectedDate) && selectedTime == old(selectedTime)
      ensures match old(Pending(user))
        case None =>
          && showConfirmation == old(showConfirmation) && lastBooking == old(lastBooking)
          && store.bookings == old(store.bookings) && store.stored == old(store.stored)
        case Some(request) =>
          && showConfirmation
          && lastBooking == Some(MakeBooking(request, DecimalString(now), ConfirmationCode(draws), nowIso))
          && RequestOf(lastBooking.value) == request
          && WellFormedCode(lastBooking.value.confirmationId)
          && store.bookings == old(store.bookings) + [lastBooking.value]
          && store.stored == Some(store.bookings)
    {
      var pending := Pending(user);
      if pending.None? {
        return;
      }
      var booking := store.AddBooking(pending.value, now, nowIso, draws);
      lastBooking := Some(booking);
      showConfirmation := true;
    }

    /** "Book Another Ride" on the confirmation view: back to the initial state. */
    method BookAnother()
      requires Valid()
      modifies this
      ensures Valid()
      ensures if old(showConfirmation) && old(lastBooking).Some? then Initial() else
        && step == old(step) && selectedBike == old(selectedBike)
        && selectedDate == old(selectedDate) && selectedTime == old(selectedTime)
        && showConfirmation == old(showConfirmation) && lastBooking == old(lastBooking)
    {
      if showConfirmation && lastBooking.Some? {
        showConfirmation := false;
        step := 1;
        selectedBike := None;
        selectedDate := "";
        selectedTime := None;
        lastBooking := None;
      }
    }
  }

  /** A whole reservation by a logged-in user: choose the premium bike, a date and the
      first slot, continue, confirm. The store gains one booking at the premium fare. */
  method ReservePremium(user: User, date: string, now: nat, nowIso: string, draws: seq<real>)
    returns (fare: int, code: string, total: nat)
    requires date != ""
    requires |draws| == CodeLength && forall i :: 0 <= i < |draws| ==> IsDraw(draws[i])
    ensures fare == 12 && WellFormedCode(code) && total == 1
  {
    var store := new BookingStore(None);
    var wizard := new Wizard();
    var slot := TimeSlots[0];
    assert slot != "" by { TimeSlotsNonEmpty(); }
    wizard.SelectBike("premium");
    wizard.SetDate(date);
    wizard.SetTime(slot);
    wizard.Continue();
    assert wizard.step == 3 && !wizard.showConfirmation;
    ConfirmableIds("premium", date, slot, user);
    ConfirmedFare("premium", date, slot, user);
    ghost var request := ConfirmRequest(Some("premium"), date, slot, Some(user)).value;
    assert wizard.Pending(Some(user)) == Some(request);
    wizard.Confirm(Some(user), store, now, nowIso, draws);
    fare := wizard.lastBooking.value.totalFare;
    code := wizard.lastBooking.value.confirmationId;
    total := store.TotalBookings();
  }
}
