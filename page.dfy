/** The state of the rental page (app/page.tsx) and its event handlers. Each
    handler is one atomic step; the browser's persistent store is represented
    by the stored-room and rental sequences themselves. */
module Page {
  import opened Wrappers
  import opened Ledger
  import Corrections
  import Wallet

  datatype ViewMode = Browse | Dashboard

  datatype DashboardTab = Overview | MyRooms | MyRentals

  /** What a rent attempt came to. */
  datatype RentResult =
    | NotAttempted   // no selected room or no connected key
    | Recorded       // payment succeeded and the rental was stored
    | PaymentFailed  // the service reported failure or threw
    | SoldOut        // no token left (only the guarded rent below reports this)

  class Home {
    var publicKey: string
    var isConnected: bool
    var refreshKey: nat
    var selectedRoom: Option<Room>
    var viewMode: ViewMode
    var dashboardTab: DashboardTab
    var showRentModal: bool
    var showListModal: bool
    var rentDays: int
    /** The rooms this browser has listed, in listing order. */
    var myRooms: seq<Room>
    /** The rentals this browser has paid for, in payment order. */
    var myRentals: seq<Rental>
    /** The catalog shown on the browse view. */
    var allRooms: seq<Room>
    var newRoom: ListingForm

    /** The page's invariant: the catalog is the seed rooms followed by the
        stored rooms, the rental duration is at least one day, and a
        disconnected page holds no key. */
    ghost predicate Valid()
      reads this
    {
      allRooms == SampleRooms + myRooms &&
      rentDays >= 1 &&
      (!isConnected ==> publicKey == "")
    }

    constructor ()
      ensures Valid()
      ensures publicKey == "" && !isConnected && refreshKey == 0
      ensures selectedRoom == None && viewMode == Browse && dashboardTab == Overview
      ensures !showRentModal && !showListModal && rentDays == 1
      ensures myRooms == [] && myRentals == [] && allRooms == SampleRooms && newRoom == EmptyForm
    {
      publicKey, isConnected, refreshKey := "", false, 0;
      selectedRoom, viewMode, dashboardTab := None, Browse, Overview;
      showRentModal, showListModal, rentDays := false, false, 1;
      myRooms, myRentals, allRooms, newRoom := [], [], SampleRooms, EmptyForm;
    }

    /** Loading what an earlier session stored: a stored room list replaces
        the stored rooms and rebuilds the catalog, a stored rental list
        replaces the rentals; an absent entry leaves its part alone. */
    method Restore(savedRooms: Option<seq<Room>>, savedRentals: Option<seq<Rental>>)
      requires Valid()
      modifies this`myRooms, this`allRooms, this`myRentals
      ensures Valid()
      ensures myRooms == if savedRooms.Some? then savedRooms.value else old(myRooms)
      ensures myRentals == if savedRentals.Some? then savedRentals.value else old(myRentals)
    {
      if savedRooms.Some? {
        myRooms := savedRooms.value;
        allRooms := SampleRooms + savedRooms.value;
      }
      if savedRentals.Some? {
        myRentals := savedRentals.value;
      }
    }

    /** The wallet reported `key`. */
    method Connect(key: string)
      requires Valid()
      modifies this`publicKey, this`isConnected
      ensures Valid()
      ensures publicKey == key && isConnected
    {
      publicKey := key;
      isConnected := true;
    }

    /** The wallet disconnected: the key is cleared and the page returns to browsing. */
    method Disconnect()
      requires Valid()
      modifies this`publicKey, this`isConnected, this`viewMode
      ensures Valid()
      ensures publicKey == "" && !isConnected && viewMode == Browse
    {
      publicKey := "";
      isConnected := false;
      viewMode := Browse;
    }

    /** Whether the rent button of `room` is enabled: not on a room the
        connected key owns. */
    function CanRent(room: Room): (enabled: bool)
      reads this
      ensures enabled <==> room.ownerPublicKey != Some(publicKey)
    {
      RentEnabled(room, publicKey)
    }

    /** Choosing a room to rent opens the rent dialog, but only when a wallet
        is connected; otherwise nothing changes. */
    method SelectRoom(room: Room) returns (shown: bool)
      requires Valid()
      modifies this`selectedRoom, this`showRentModal
      ensures Valid()
      ensures shown == isConnected
      ensures shown ==> selectedRoom == Some(room) && showRentModal
      ensures !shown ==> selectedRoom == old(selectedRoom) && showRentModal == old(showRentModal)
    {
      if !isConnected {
        return false;
      }
      selectedRoom := Some(room);
      showRentModal := true;
      return true;
    }

    /** The "+" button of the rent dialog. */
    method IncrementDays()
      requires Valid()
      modifies this`rentDays
      ensures Valid()
      ensures rentDays == old(rentDays) + 1
    {
      rentDays := rentDays + 1;
    }

    /** The "-" button of the rent dialog: never below one day. */
    method DecrementDays()
      requires Valid()
      modifies this`rentDays
      ensures Valid()
      ensures rentDays == if old(rentDays) > 1 then old(rentDays) - 1 else 1
    {
      rentDays := if 1 > rentDays - 1 then 1 else rentDays - 1;
    }

    /** Closing or cancelling the rent dialog. */
    method CloseRentModal()
      requires Valid()
      modifies this`showRentModal, this`selectedRoom, this`rentDays
      ensures Valid()
      ensures !showRentModal && selectedRoom == None && rentDays == 1
    {
      showRentModal := false;
      selectedRoom := None;
      rentDays := 1;
    }

    /** The total the rent dialog displays: zero without a selected room,
        otherwise the quote for the current duration. */
    function CalculateTotal(): (total: Option<real>)
      reads this
      ensures selectedRoom == None ==> total == Some(0.0)
      ensures selectedRoom.Some? ==> total == Quote(selectedRoom.value.price, selectedRoom.value.deposit, rentDays)
    {
      match selectedRoom
      case None => Some(0.0)
      case Some(room) => Quote(room.price, room.deposit, rentDays)
    }

    /** Paying for the selected room. Without a selected room or a key nothing
        is sent and nothing changes. Otherwise the request pays the quoted total
        (the same figure the dialog shows) from the connected key to the room's
        settlement address, and `outcome` is the service's answer. Only a
        successful answer appends a rental, closes the dialog and resets the
        duration; rooms are never touched. */
    method RentRoom(id: int, startDate: string, outcome: PaymentOutcome)
      returns (request: Option<PaymentRequest>, result: RentResult)
      requires Valid()
      modifies this`myRentals, this`showRentModal, this`selectedRoom, this`rentDays, this`refreshKey
      ensures Valid()
      ensures myRooms == old(myRooms) && allRooms == old(allRooms)
      ensures old(selectedRoom) == None || old(publicKey) == "" ==>
                request == None && result == NotAttempted && myRentals == old(myRentals) &&
                selectedRoom == old(selectedRoom) && showRentModal == old(showRentModal) &&
                rentDays == old(rentDays) && refreshKey == old(refreshKey)
      ensures old(selectedRoom).Some? && old(publicKey) != "" ==>
                request == Some(RentalRequest(old(selectedRoom).value, old(publicKey), old(rentDays))) &&
                request.value.amount == old(CalculateTotal())
      ensures old(selectedRoom).Some? && old(publicKey) != "" && outcome.Paid? ==>
                result == Recorded &&
                myRentals == old(myRentals) + [NewRental(id, old(selectedRoom).value, old(rentDays), startDate, outcome.hash)] &&
                selectedRoom == None && !showRentModal && rentDays == 1 && refreshKey == old(refreshKey) + 1
      ensures old(selectedRoom).Some? && old(publicKey) != "" && !outcome.Paid? ==>
                result == PaymentFailed && myRentals == old(myRentals) &&
                selectedRoom == old(selectedRoom) && showRentModal == old(showRentModal) &&
                rentDays == old(rentDays) && refreshKey == old(refreshKey)
    {
      if selectedRoom.None? || publicKey == "" {
        return None, NotAttempted;
      }
      var room := selectedRoom.value;
      request := Some(RentalRequest(room, publicKey, rentDays));
      match outcome {
        case Paid(hash) =>
          var rental := NewRental(id, room, rentDays, startDate, hash);
          myRentals := myRentals + [rental];
          showRentModal := false;
          selectedRoom := None;
          rentDays := 1;
          refreshKey := refreshKey + 1;
          result := Recorded;
        case _ =>
          result := PaymentFailed;
      }
    }

    /** Not in the source: store a paid rental unless its hash is present and
        already recorded, replacing the stored rooms with the reserved room's
        id by the reserved copy; an already settled rental changes neither.
        Either way the rent dialog is closed and reset. */
    method TakeToken(reserved: Room, rental: Rental)
      requires Valid()
      modifies this`myRooms, this`allRooms, this`myRentals, this`showRentModal, this`selectedRoom,
               this`rentDays, this`refreshKey
      ensures Valid()
      ensures selectedRoom == None && !showRentModal && rentDays == 1 && refreshKey == old(refreshKey) + 1
      ensures myRooms == (if Corrections.AlreadySettled(old(myRentals), rental.transactionHash) then old(myRooms)
                          else Corrections.ReplaceRoom(old(myRooms), reserved))
      ensures myRentals == Corrections.RecordUnique(old(myRentals), rental)
    {
      if !Corrections.AlreadySettled(myRentals, rental.transactionHash) {
        myRooms := Corrections.ReplaceRoom(myRooms, reserved);
        allRooms := SampleRooms + myRooms;
        myRentals := myRentals + [rental];
      }
      showRentModal := false;
      selectedRoom := None;
      rentDays := 1;
      refreshKey := refreshKey + 1;
    }

    /** Not in the source: the rent handler with the sold-out check and the
        token reservation the page lacks. The counts that decide are those of
        the stored room with the selection's id (`Corrections.CurrentRoom`), not
        those of the possibly stale selected copy. A room with fewer tokens
        left than the days asked for (each token is one day's use) is refused
        before any payment is requested. A successful payment that is not
        already settled takes one token per day from every stored room with
        that id (seed rooms are constants of the page and keep their counts)
        and records the rental; a result whose hash is present and already
        recorded changes neither rooms nor rentals. Stored rooms whose counts
        were in range stay in range. */
    method RentRoomIfAvailable(id: int, startDate: string, outcome: PaymentOutcome)
      returns (request: Option<PaymentRequest>, result: RentResult)
      requires Valid()
      modifies this`myRooms, this`allRooms, this`myRentals, this`showRentModal, this`selectedRoom,
               this`rentDays, this`refreshKey
      ensures Valid()
      ensures old(selectedRoom) == None || old(publicKey) == "" ==>
                request == None && result == NotAttempted &&
                myRooms == old(myRooms) && myRentals == old(myRentals) &&
                selectedRoom == old(selectedRoom) && showRentModal == old(showRentModal) &&
                rentDays == old(rentDays) && refreshKey == old(refreshKey)
      ensures old(selectedRoom).Some? && old(publicKey) != "" &&
              Corrections.Reserve(Corrections.CurrentRoom(old(myRooms), old(selectedRoom).value), old(rentDays) as nat).None? ==>
                request == None && result == SoldOut &&
                myRooms == old(myRooms) && myRentals == old(myRentals) &&
                selectedRoom == old(selectedRoom) && showRentModal == old(showRentModal) &&
                rentDays == old(rentDays) && refreshKey == old(refreshKey)
      ensures old(selectedRoom).Some? && old(publicKey) != "" &&
              Corrections.Reserve(Corrections.CurrentRoom(old(myRooms), old(selectedRoom).value), old(rentDays) as nat).Some? ==>
                request == Some(RentalRequest(old(selectedRoom).value, publicKey, old(rentDays)))
      ensures old(selectedRoom).Some? && old(publicKey) != "" &&
              Corrections.Reserve(Corrections.CurrentRoom(old(myRooms), old(selectedRoom).value), old(rentDays) as nat).Some? &&
              outcome.Paid? ==>
                result == Recorded &&
                myRooms == (if Corrections.AlreadySettled(old(myRentals), outcome.hash) then old(myRooms)
                            else Corrections.ReplaceRoom(old(myRooms),
                                   Corrections.Reserve(Corrections.CurrentRoom(old(myRooms), old(selectedRoom).value), old(rentDays) as nat).value)) &&
                myRentals == Corrections.RecordUnique(old(myRentals),
                               NewRental(id, old(selectedRoom).value, old(rentDays), startDate, outcome.hash)) &&
                selectedRoom == None && !showRentModal && rentDays == 1 && refreshKey == old(refreshKey) + 1
      ensures old(selectedRoom).Some? && old(publicKey) != "" &&
              Corrections.Reserve(Corrections.CurrentRoom(old(myRooms), old(selectedRoom).value), old(rentDays) as nat).Some? &&
              !outcome.Paid? ==>
                result == PaymentFailed && myRooms == old(myRooms) && myRentals == old(myRentals) &&
                selectedRoom == old(selectedRoom) && showRentModal == old(showRentModal) &&
                rentDays == old(rentDays) && refreshKey == old(refreshKey)
      ensures (forall i :: 0 <= i < |old(myRooms)| ==> Corrections.InStock(old(myRooms)[i])) ==>
                forall i :: 0 <= i < |myRooms| ==> Corrections.InStock(myRooms[i])
    {
      if selectedRoom.None? || publicKey == "" {
        return None, NotAttempted;
      }
      var room := selectedRoom.value;
      var reserved := Corrections.Reserve(Corrections.CurrentRoom(myRooms, room), rentDays as nat);
      if reserved.None? {
        return None, SoldOut;
      }
      request := Some(RentalRequest(room, publicKey, rentDays));
      if !outcome.Paid? {
        return request, PaymentFailed;
      }
      if forall i :: 0 <= i < |myRooms| ==> Corrections.InStock(myRooms[i]) {
        Corrections.GuardedRentKeepsStock(myRooms, room, rentDays as nat);
      }
      TakeToken(reserved.value, NewRental(id, room, rentDays, startDate, outcome.hash));
      result := Recorded;
    }

    /** Typing into the listing form. */
    method EditListing(form: ListingForm)
      requires Valid()
      modifies this`newRoom
      ensures Valid()
      ensures newRoom == form
    {
      newRoom := form;
    }

    /** Listing the room in the form. An incomplete form or a missing key
        changes nothing. Otherwise exactly one minted room is appended to the
        stored rooms, the catalog follows, the form is cleared and the
        dashboard opens on "my rooms". `imageChoice` stands for the random
        pick among the six images. */
    method ListRoom(id: int, imageChoice: nat) returns (listed: bool)
      requires Valid()
      requires imageChoice < |ListingImages|
      modifies this`myRooms, this`allRooms, this`newRoom, this`showListModal, this`viewMode, this`dashboardTab
      ensures Valid()
      ensures listed == ListingAccepted(old(newRoom), publicKey)
      ensures !listed ==> myRooms == old(myRooms) && allRooms == old(allRooms) && newRoom == old(newRoom) &&
                          showListModal == old(showListModal) && viewMode == old(viewMode) &&
                          dashboardTab == old(dashboardTab)
      ensures listed ==>
                myRooms == old(myRooms) + [MintRoom(old(newRoom), publicKey, id, ListingImages[imageChoice])] &&
                newRoom == EmptyForm && !showListModal && viewMode == Dashboard && dashboardTab == MyRooms
    {
      if !ListingAccepted(newRoom, publicKey) {
        return false;
      }
      var room := MintRoom(newRoom, publicKey, id, ListingImages[imageChoice]);
      myRooms := myRooms + [room];
      allRooms := SampleRooms + myRooms;
      newRoom := EmptyForm;
      showListModal := false;
      viewMode := Dashboard;
      dashboardTab := MyRooms;
      return true;
    }
  }

  /** The header's wallet component wired to the page: a key the wallet
      returns reaches the page through the connect callback, so both hold the
      same key; a failed attempt leaves the page as it was. */
  method ConnectThroughWallet(wallet: Wallet.WalletConnection, home: Home, outcome: Wallet.ConnectOutcome)
    requires wallet.Valid() && home.Valid()
    modifies wallet, home`publicKey, home`isConnected
    ensures wallet.Valid() && home.Valid()
    ensures wallet.State() == Wallet.AfterConnect(old(wallet.State()), outcome)
    ensures outcome.KeyReturned? ==> wallet.notices == old(wallet.notices) + [Wallet.OnConnect(outcome.key)]
    ensures outcome.ConnectFailed? ==> wallet.notices == old(wallet.notices)
    ensures outcome.KeyReturned? ==> home.publicKey == wallet.publicKey == outcome.key && home.isConnected
    ensures outcome.ConnectFailed? ==> home.publicKey == old(home.publicKey) && home.isConnected == old(home.isConnected)
    ensures home.myRooms == old(home.myRooms) && home.myRentals == old(home.myRentals)
  {
    wallet.HandleConnect(outcome);
    if outcome.KeyReturned? {
      home.Connect(outcome.key);
    }
  }

  /** Disconnecting from the header: the wallet forgets its key, then the
      disconnect callback clears the page's key and returns it to browsing. */
  method DisconnectThroughWallet(wallet: Wallet.WalletConnection, home: Home)
    requires wallet.Valid() && home.Valid()
    modifies wallet, home`publicKey, home`isConnected, home`viewMode
    ensures wallet.Valid() && home.Valid()
    ensures wallet.State() == Wallet.AfterDisconnect(old(wallet.State()))
    ensures wallet.notices == old(wallet.notices) + [Wallet.OnDisconnect]
    ensures wallet.publicKey == home.publicKey == "" && !wallet.isConnected && !home.isConnected
    ensures home.viewMode == Browse
    ensures home.myRooms == old(home.myRooms) && home.myRentals == old(home.myRentals)
  {
    wallet.HandleDisconnect();
    home.Disconnect();
  }
}
