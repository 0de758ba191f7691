/** Runs of the page's handlers, one after another, that show how the page as
    written behaves over several steps, and how the guarded rent differs. */
module Scenarios {
  import opened Wrappers
  import opened Ledger
  import opened Page
  import Corrections

  /** A fresh page on which `owner` has connected, listed the room in `form`
      and disconnected again. */
  method ListedByOwner(owner: string, form: ListingForm, roomId: int, imageChoice: nat) returns (home: Home)
    requires ListingAccepted(form, owner) && imageChoice < |ListingImages|
    ensures fresh(home) && home.Valid()
    ensures home.myRooms == [MintRoom(form, owner, roomId, ListingImages[imageChoice])] && home.myRentals == []
    ensures home.selectedRoom == None && home.rentDays == 1
  {
    home := new Home();
    home.Connect(owner);
    home.EditListing(form);
    var listed := home.ListRoom(roomId, imageChoice);
    home.Disconnect();
  }

  /** An owner lists a room, another key rents it and pays: the stored room
      still has every token available, so its dashboard revenue stays 0 (or
      NaN) although a rental was recorded for it. */
  method ListedRoomStaysUnsold(owner: string, renter: string, form: ListingForm, roomId: int,
                               imageChoice: nat, rentalId: int, startDate: string, hash: Option<string>)
    returns (stored: seq<Room>, rentals: seq<Rental>)
    requires ListingAccepted(form, owner) && renter != "" && renter != owner && imageChoice < |ListingImages|
    ensures stored == [MintRoom(form, owner, roomId, ListingImages[imageChoice])]
    ensures |rentals| == 1 && rentals[0].room == stored[0] && rentals[0].status == Active
    ensures Revenue(stored[0]) == None || Revenue(stored[0]) == Some(0.0)
  {
    var home := ListedByOwner(owner, form, roomId, imageChoice);
    home.Connect(renter);
    var shown := home.SelectRoom(home.allRooms[|SampleRooms|]);
    var request, result := home.RentRoom(rentalId, startDate, Paid(hash));
    stored, rentals := home.myRooms, home.myRentals;
    Corrections.ListedRoomEarnsNothing(form, owner, roomId, ListingImages[imageChoice]);
  }

  /** A room listed with token supply "0", which the listing guard lets
      through, has no token left from the start; picked from the catalog by
      another key, it is still charged for and, once paid, rented. */
  method SoldOutRoomStillRented(owner: string, renter: string, form: ListingForm, roomId: int,
                                imageChoice: nat, rentalId: int, startDate: string, hash: Option<string>)
    returns (room: Room, request: Option<PaymentRequest>, rentals: seq<Rental>)
    requires ListingAccepted(form, owner) && form.tokenSupply == "0"
    requires renter != "" && renter != owner && imageChoice < |ListingImages|
    ensures room.available == Some(0) && room.ownerPublicKey == Some(owner)
    ensures request == Some(RentalRequest(room, renter, 1))
    ensures rentals == [NewRental(rentalId, room, 1, startDate, hash)]
  {
    var home := ListedByOwner(owner, form, roomId, imageChoice);
    home.Connect(renter);
    room := home.allRooms[|SampleRooms|];
    assert "0"[1..] == "";
    var shown := home.SelectRoom(room);
    var result;
    request, result := home.RentRoom(rentalId, startDate, Paid(hash));
    rentals := home.myRentals;
  }

  /** With the sold-out check, a stored room with no token left, picked from
      the catalog, is refused before any payment is requested, and nothing is
      recorded. */
  method SoldOutRoomRefused(renter: string, room: Room, rentalId: int, startDate: string,
                            hash: Option<string>)
    returns (request: Option<PaymentRequest>, result: RentResult, rentals: seq<Rental>)
    requires renter != "" && room.available == Some(0)
    ensures request == None && result == SoldOut && rentals == []
  {
    var home := new Home();
    home.Restore(Some([room]), None);
    home.Connect(renter);
    var shown := home.SelectRoom(home.allRooms[|SampleRooms|]);
    request, result := home.RentRoomIfAvailable(rentalId, startDate, Paid(hash));
    rentals := home.myRentals;
  }

  /** The guarded rent reads the stored counts, not the selected copy: a
      selection of a stored room with no token left is refused whatever counts
      the selected copy carries, and the stored room is left as it was. */
  method StaleSelectionRefused(renter: string, room: Room, selected: Room, rentalId: int,
                               startDate: string, hash: Option<string>)
    returns (request: Option<PaymentRequest>, result: RentResult, stored: seq<Room>)
    requires renter != "" && room.available == Some(0) && selected.id == room.id
    ensures request == None && result == SoldOut && stored == [room]
  {
    var home := new Home();
    home.Restore(Some([room]), None);
    home.Connect(renter);
    var shown := home.SelectRoom(selected);
    request, result := home.RentRoomIfAvailable(rentalId, startDate, Paid(hash));
    stored := home.myRooms;
  }

  /** The same successful payment result handed to the page twice is
      recorded twice under one transaction hash. */
  method SameResultRecordedTwice(renter: string, room: Room, rentalId: int, startDate: string,
                                 hash: Option<string>)
    returns (rentals: seq<Rental>)
    requires renter != ""
    ensures |rentals| == 2 && Corrections.CountHash(rentals, hash) == 2
  {
    var home := new Home();
    home.Connect(renter);
    var shown := home.SelectRoom(room);
    var request, result := home.RentRoom(rentalId, startDate, Paid(hash));
    shown := home.SelectRoom(room);
    request, result := home.RentRoom(rentalId, startDate, Paid(hash));
    rentals := home.myRentals;
  }

  /** With the guarded rent, the repeated result, for a stored room picked
      from the catalog each time, is recorded once and takes one token. */
  method SameResultRecordedOnce(renter: string, room: Room, rentalId: int, startDate: string,
                                hash: Option<string>)
    returns (rentals: seq<Rental>, stored: seq<Room>)
    requires renter != "" && hash.Some? && room.available.Some? && room.available.value > 0
    ensures |rentals| == 1 && rentals[0].transactionHash == hash
    ensures stored == [room.(available := Some(room.available.value - 1))]
  {
    var home := new Home();
    home.Restore(Some([room]), None);
    home.Connect(renter);
    var reserved := room.(available := Some(room.available.value - 1));
    ReserveOnlyRoom(room);
    var shown := home.SelectRoom(home.allRooms[|SampleRooms|]);
    var request, result := home.RentRoomIfAvailable(rentalId, startDate, Paid(hash));
    var first := home.myRentals;
    assert home.myRooms == [reserved];
    assert first == [NewRental(rentalId, room, 1, startDate, hash)];
    assert Corrections.AlreadySettled(first, hash) by {
      assert first[0].transactionHash == hash;
    }
    shown := home.SelectRoom(home.allRooms[|SampleRooms|]);
    request, result := home.RentRoomIfAvailable(rentalId, startDate, Paid(hash));
    rentals, stored := home.myRentals, home.myRooms;
  }

  /** Reserving one token of the only stored room. */
  lemma ReserveOnlyRoom(room: Room)
    requires room.available.Some? && room.available.value > 0
    ensures Corrections.Reserve(Corrections.CurrentRoom([room], room), 1) == Some(room.(available := Some(room.available.value - 1)))
    ensures Corrections.ReplaceRoom([room], room.(available := Some(room.available.value - 1))) ==
            [room.(available := Some(room.available.value - 1))]
  {
    assert Corrections.FindRoom([room], room.id) == 0;
  }
}
