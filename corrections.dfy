/** Behaviour the rental page does NOT have, written beside the model of what
    it does: reserving one token per rented day, refusing a second record for one
    transaction hash, and validating the numeric fields of a listing. The
    page's own handlers do not use these; only the extra guarded rent handler
    `Page.Home.RentRoomIfAvailable` does. Each is paired with a lemma about the
    page as written that shows the gap it closes. */
module Corrections {
  import opened Wrappers
  import opened Numbers
  import opened Ledger

  // ---- Availability and revenue ----

  /** A room's token counts are numbers and `0 <= available <= tokenSupply`. */
  predicate InStock(room: Room)
  {
    room.tokenSupply.Some? && room.available.Some? &&
    0 <= room.available.value <= room.tokenSupply.value
  }

  /** As written: a freshly listed room has every token available, so its
      dashboard revenue is zero, or NaN when its supply or price does not
      parse. */
  lemma ListedRoomEarnsNothing(form: ListingForm, owner: string, id: int, image: string)
    ensures var room := MintRoom(form, owner, id, image);
      Revenue(room) == None || Revenue(room) == Some(0.0)
  {
  }

  /** Not in the source: take `units` tokens of `room` (each token is one
      day's use of the room), failing when fewer are left. */
  function Reserve(room: Room, units: nat): (r: Option<Room>)
    ensures r.Some? <==> room.available.Some? && room.available.value >= units
    ensures r.Some? ==> r.value == room.(available := Some(room.available.value - units))
    ensures r.Some? ==> r.value.tokenSupply == room.tokenSupply && r.value.price == room.price
  {
    match room.available
    case Some(n) => if n >= units then Some(room.(available := Some(n - units))) else None
    case None => None
  }

  /** Reserving keeps the token counts within range. */
  lemma ReserveKeepsStockInRange(room: Room, units: nat)
    requires InStock(room)
    ensures Reserve(room, units).Some? ==> InStock(Reserve(room, units).value)
  {
  }

  /** Selling `units` more tokens adds the rent for `units` days (no deposit)
      to the figure. */
  lemma MoreSold(supply: int, available: int, units: nat, price: real)
    ensures Earned(supply, available - units, price) == Earned(supply, available, price) + Charge(price, units, 0.0)
  {
    var x, y := (supply - available) as real, units as real;
    assert (supply - (available - units)) as real == x + y;
    assert (x + y) * price == x * price + price * y;
  }

  /** With reservation, a rental of `units` days adds the rent for those days
      (the daily price times `units`, without the deposit) to the revenue
      figure. */
  lemma ReserveEarnsPrice(room: Room, units: nat)
    requires Reserve(room, units).Some? && Revenue(room).Some?
    ensures Revenue(Reserve(room, units).value) ==
            Some(Revenue(room).value + Charge(ParseFloat(room.price).value, units, 0.0))
  {
    var s, a, p := room.tokenSupply.value, room.available.value, ParseFloat(room.price).value;
    var after := Reserve(room, units).value;
    assert after.tokenSupply == Some(s) && after.available == Some(a - units) && after.price == room.price;
    assert Revenue(room) == Some(Earned(s, a, p));
    assert Revenue(after) == Some(Earned(s, a - units, p));
    MoreSold(s, a, units, p);
  }

  /** Not in the source: the position of the first room with id `id` in
      `rooms`, or `|rooms|` when there is none. */
  function FindRoom(rooms: seq<Room>, id: int): (k: nat)
    ensures k <= |rooms|
    ensures k < |rooms| ==> rooms[k].id == id
    ensures forall i :: 0 <= i < k ==> rooms[i].id != id
  {
    if rooms == [] then 0
    else if rooms[0].id == id then 0
    else 1 + FindRoom(rooms[1..], id)
  }

  /** Not in the source: the current counts of a selected room are those of
      the stored room with its id; a room with no stored entry is a seed room,
      which the page never changes, so the selection itself is current. */
  function CurrentRoom(stored: seq<Room>, selected: Room): (r: Room)
    ensures r.id == selected.id
    ensures r == selected || r in stored
  {
    var k := FindRoom(stored, selected.id);
    if k < |stored| then stored[k] else selected
  }

  /** The current room is a stored one exactly when some stored room has the
      selection's id; otherwise it is the selection. */
  lemma CurrentRoomIsStored(stored: seq<Room>, selected: Room)
    ensures (exists i :: 0 <= i < |stored| && stored[i].id == selected.id) ==> CurrentRoom(stored, selected) in stored
    ensures (forall i :: 0 <= i < |stored| ==> stored[i].id != selected.id) ==> CurrentRoom(stored, selected) == selected
  {
  }

  /** Not in the source: the stored rooms with every room that has `room`'s id
      replaced by `room`, and all others kept in place. */
  function ReplaceRoom(rooms: seq<Room>, room: Room): (r: seq<Room>)
    ensures |r| == |rooms|
    ensures forall i :: 0 <= i < |rooms| ==> r[i] == (if rooms[i].id == room.id then room else rooms[i])
  {
    if rooms == [] then []
    else ReplaceRoom(rooms[..|rooms| - 1], room) +
         [if rooms[|rooms| - 1].id == room.id then room else rooms[|rooms| - 1]]
  }

  /** Replacing a room by its reserved copy keeps every stored room in stock. */
  lemma ReplaceRoomKeepsStock(rooms: seq<Room>, room: Room, units: nat)
    requires forall i :: 0 <= i < |rooms| ==> InStock(rooms[i])
    requires InStock(room) && Reserve(room, units).Some?
    ensures forall i :: 0 <= i < |rooms| ==> InStock(ReplaceRoom(rooms, Reserve(room, units).value)[i])
  {
    ReserveKeepsStockInRange(room, units);
  }

  /** The guarded rent's update of the stored rooms, reserving against the
      current room of a selection, keeps every stored room in stock. */
  lemma GuardedRentKeepsStock(stored: seq<Room>, selected: Room, units: nat)
    requires forall i :: 0 <= i < |stored| ==> InStock(stored[i])
    requires Reserve(CurrentRoom(stored, selected), units).Some?
    ensures forall i :: 0 <= i < |stored| ==>
              InStock(ReplaceRoom(stored, Reserve(CurrentRoom(stored, selected), units).value)[i])
  {
    var current := CurrentRoom(stored, selected);
    if current in stored {
      ReplaceRoomKeepsStock(stored, current, units);
    } else {
      assert FindRoom(stored, selected.id) == |stored|;
    }
  }

  // ---- Duplicate transaction hashes ----

  /** How many records carry transaction hash `hash`. */
  function CountHash(rentals: seq<Rental>, hash: Option<string>): (n: nat)
    ensures n <= |rentals|
  {
    if rentals == [] then 0
    else CountHash(rentals[..|rentals| - 1], hash) + (if rentals[|rentals| - 1].transactionHash == hash then 1 else 0)
  }

  predicate HasHash(rentals: seq<Rental>, hash: Option<string>)
  {
    exists i :: 0 <= i < |rentals| && rentals[i].transactionHash == hash
  }

  lemma {:induction false} CountHashPositive(rentals: seq<Rental>, hash: Option<string>)
    ensures CountHash(rentals, hash) > 0 <==> HasHash(rentals, hash)
  {
    if rentals != [] {
      var init := rentals[..|rentals| - 1];
      CountHashPositive(init, hash);
      if HasHash(rentals, hash) && rentals[|rentals| - 1].transactionHash != hash {
        var i :| 0 <= i < |rentals| && rentals[i].transactionHash == hash;
        assert init[i].transactionHash == hash;
      }
      if HasHash(init, hash) {
        var i :| 0 <= i < |init| && init[i].transactionHash == hash;
        assert rentals[i].transactionHash == hash;
      }
    }
  }

  /** As written: the page appends every successful result, so the same
      result arriving twice is stored twice. */
  lemma SameHashStoredTwice(rentals: seq<Rental>, rental: Rental)
    ensures CountHash(rentals + [rental] + [rental], rental.transactionHash) ==
            CountHash(rentals, rental.transactionHash) + 2
  {
  }

  /** A payment is already settled when it carries a hash that some record
      carries; a payment without a hash is never taken for another one. */
  predicate AlreadySettled(rentals: seq<Rental>, hash: Option<string>)
  {
    hash.Some? && HasHash(rentals, hash)
  }

  /** Not in the source: append `rental` unless its hash is present and
      already recorded. */
  function RecordUnique(rentals: seq<Rental>, rental: Rental): (r: seq<Rental>)
    ensures rental.transactionHash.Some? && HasHash(rentals, rental.transactionHash) ==> r == rentals
    ensures rental.transactionHash.None? || !HasHash(rentals, rental.transactionHash) ==> r == rentals + [rental]
  {
    if AlreadySettled(rentals, rental.transactionHash) then rentals else rentals + [rental]
  }

  /** Recording the same rental with a hash twice stores it once; a rental
      without a hash is appended each time. */
  lemma RecordUniqueIdempotent(rentals: seq<Rental>, rental: Rental)
    ensures rental.transactionHash.Some? ==>
              RecordUnique(RecordUnique(rentals, rental), rental) == RecordUnique(rentals, rental)
    ensures rental.transactionHash.None? ==>
              RecordUnique(RecordUnique(rentals, rental), rental) == rentals + [rental, rental]
    ensures CountHash(RecordUnique(rentals, rental), rental.transactionHash) ==
            (if AlreadySettled(rentals, rental.transactionHash) then CountHash(rentals, rental.transactionHash)
             else CountHash(rentals, rental.transactionHash) + 1)
  {
    if rental.transactionHash.Some? {
      var once := rentals + [rental];
      assert once[|rentals|].transactionHash == rental.transactionHash;
    }
  }

  /** Payments without a hash are all recorded, however many arrive: two
      different rentals paid without a hash are never merged. */
  lemma HashlessRentalsAllRecorded(rentals: seq<Rental>, first: Rental, second: Rental)
    requires first.transactionHash.None? && second.transactionHash.None?
    ensures RecordUnique(RecordUnique(rentals, first), second) == rentals + [first, second]
  {
  }

  /** No two records share a present hash. */
  predicate DistinctHashes(rentals: seq<Rental>)
  {
    forall i, j :: 0 <= i < j < |rentals| && rentals[i].transactionHash.Some? ==>
      rentals[i].transactionHash != rentals[j].transactionHash
  }

  /** The guarded append keeps the hashes distinct. */
  lemma RecordUniqueKeepsHashesDistinct(rentals: seq<Rental>, rental: Rental)
    requires DistinctHashes(rentals)
    ensures DistinctHashes(RecordUnique(rentals, rental))
  {
  }

  // ---- Listing validation ----

  datatype ListingError = AuthenticationRequired | ValidationError

  /** As written: a listing whose deposit field was left empty mints a room
      whose total is NaN for every duration. */
  lemma EmptyDepositNeverQuotes(form: ListingForm, owner: string, id: int, image: string, days: int)
    requires form.deposit == ""
    ensures var room := MintRoom(form, owner, id, image);
      Quote(room.price, room.deposit, days) == None
  {
  }

  /** As written: an empty token supply mints a room whose counts are NaN. */
  lemma EmptySupplyMintsNaN(form: ListingForm, owner: string, id: int, image: string)
    requires form.tokenSupply == ""
    ensures MintRoom(form, owner, id, image).tokenSupply == None
    ensures MintRoom(form, owner, id, image).available == None
  {
  }

  /** A price or deposit that parses to a non-negative amount. */
  predicate Amount(s: string)
  {
    ParseFloat(s).Some? && ParseFloat(s).value >= 0.0
  }

  /** Not in the source: a listing that requires a connected key, a title, a
      location, a non-negative price and a positive token supply, and reads a
      missing or malformed deposit as zero. */
  function MintRoomChecked(form: ListingForm, owner: string, id: int, image: string): (r: Result<Room, ListingError>)
    ensures owner == "" ==> r == Err(AuthenticationRequired)
    ensures owner != "" ==>
              (r.Ok? <==> form.title != "" && form.location != "" && Amount(form.price) &&
                          ParseInt(form.tokenSupply).Some? && ParseInt(form.tokenSupply).value > 0)
    ensures owner != "" && r.Err? ==> r == Err(ValidationError)
    ensures r.Ok? ==> r.value.deposit == (if Amount(form.deposit) then form.deposit else "0")
    ensures r.Ok? ==> r.value.title == form.title && r.value.price == form.price &&
                      r.value.tokenSupply == ParseInt(form.tokenSupply)
    ensures r.Ok? ==> r.value.ownerPublicKey == Some(owner) && r.value.available == r.value.tokenSupply
  {
    if owner == "" then Err(AuthenticationRequired)
    else if form.title == "" || form.location == "" || !Amount(form.price) then Err(ValidationError)
    else match ParseInt(form.tokenSupply)
      case Some(n) =>
        if n <= 0 then Err(ValidationError)
        else
          var deposit := if Amount(form.deposit) then form.deposit else "0";
          Ok(MintRoom(form.(deposit := deposit), owner, id, image))
      case None => Err(ValidationError)
  }

  /** A checked listing is in stock with every token available and quotes a
      non-negative total for any number of days. */
  lemma CheckedListingAlwaysQuotes(form: ListingForm, owner: string, id: int, image: string, days: nat)
    requires MintRoomChecked(form, owner, id, image).Ok?
    ensures var room := MintRoomChecked(form, owner, id, image).value;
      InStock(room) && room.tokenSupply.value > 0 &&
      Quote(room.price, room.deposit, days).Some? && Quote(room.price, room.deposit, days).value >= 0.0
  {
    var room := MintRoomChecked(form, owner, id, image).value;
    assert ParseFloat("0") == Some(0.0) by { ParseFloatOfNat(0); assert NatToString(0) == "0"; }
    assert Amount(room.deposit);
    assert Amount(room.price);
    var p, d := ParseFloat(room.price).value, ParseFloat(room.deposit).value;
    assert Charge(p, days, d) >= 0.0 by { NonNegativeCharge(p, days, d); }
  }

  lemma NonNegativeCharge(price: real, days: nat, deposit: real)
    requires price >= 0.0 && deposit >= 0.0
    ensures Charge(price, days, deposit) >= 0.0
  {
  }
}
