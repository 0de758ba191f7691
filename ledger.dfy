/** The pure rules of the rental page (app/page.tsx): the room and rental
    records, the seed catalog, settlement-address resolution, the rental quote,
    the payment memo and the minting of a listed room. */
module Ledger {
  import opened Wrappers
  import opened Numbers
  import opened JsString

  /** A room as the page stores it. Prices stay the strings the owner typed and
      are parsed where they are used; `tokenSupply` and `available` hold the
      result of `parseInt`, None standing for NaN. The owner key is optional. */
  datatype Room = Room(
    id: int,
    title: string,
    location: string,
    price: string,
    image: string,
    rating: string,
    reviews: nat,
    tokenSupply: Option<int>,
    available: Option<int>,
    deposit: string,
    description: string,
    amenities: seq<string>,
    ownerPublicKey: Option<string>)

  /** The only status the page ever writes into a rental record. */
  datatype RentalStatus = Active

  /** A stored rental: the whole room is copied into the record. */
  datatype Rental = Rental(
    id: int,
    room: Room,
    days: int,
    totalCost: Option<real>,
    startDate: string,
    transactionHash: Option<string>,
    status: RentalStatus)

  /** The contents of the "list a room" form. */
  datatype ListingForm = ListingForm(
    title: string,
    location: string,
    price: string,
    deposit: string,
    tokenSupply: string,
    description: string,
    amenities: seq<string>)

  /** What is handed to the payment service: payer, payee, amount and memo. */
  datatype PaymentRequest = PaymentRequest(from: string, to: string, amount: Option<real>, memo: string)

  /** What the payment service reports: a result whose success flag is set (with
      the transaction hash, which may be missing), a result whose flag is not
      set, or a thrown error. */
  datatype PaymentOutcome = Paid(hash: Option<string>) | Declined | Threw(message: string)

  /** The fallback settlement address (written in two pieces so that the
      verifier can look at its first characters). */
  const DefaultOwnerAddress: string := "GAIH3ULL" + "FQ4DGSECF2AR555KZ4KNDGEKN4AFI4SU2M7B43MGK3QJZNSR"

  /** The default address is itself payable. */
  lemma DefaultAddressPayable()
    ensures PayableOwner(Some(DefaultOwnerAddress))
  {
    assert DefaultOwnerAddress[1] != PlaceholderPrefix[1];
  }

  /** Owner keys starting with this are placeholders, never paid. */
  const PlaceholderPrefix: string := "GXXXXXX"

  /** The length of a Stellar account key. */
  const KeyLength: nat := 56

  const EmptyForm: ListingForm := ListingForm("", "", "", "", "", "", [])

  /** The image choices of a freshly listed room. */
  const ListingImages: seq<string> := ["🏠", "🏖️", "🏙️", "🌳", "🏢", "🏡"]

  /** The four rooms every catalog starts with. */
  const SampleRooms: seq<Room> := [
    Room(1, "Lüks Deniz Manzaralı Suit", "İstanbul, Beşiktaş", "150", "🏖️", "4.9", 127,
         Some(30), Some(22), "50",
         "Deniz manzaralı lüks suit. Balkonlu, jakuzili, modern mobilyalı.",
         ["WiFi", "Klima", "Jakuzi", "Balkon", "Deniz Manzarası"], Some(DefaultOwnerAddress)),
    Room(2, "Modern Şehir Merkezi Studio", "Ankara, Çankaya", "1", "🏙️", "4.7", 89,
         Some(25), Some(18), "0",
         "Şehir merkezinde modern studio daire. Metro yakını.",
         ["WiFi", "Klima", "Mutfak", "Metro Yakını"], Some(DefaultOwnerAddress)),
    Room(3, "Sakin Bahçeli Villa Odası", "İzmir, Çeşme", "120", "🌳", "4.8", 156,
         Some(20), Some(5), "40",
         "Bahçeli villada huzurlu oda. Havuz ve barbekü alanı mevcut.",
         ["WiFi", "Havuz", "Bahçe", "Barbekü", "Otopark"], Some(DefaultOwnerAddress)),
    Room(4, "Merkezi Konum Tek Kişilik", "Antalya, Muratpaşa", "65", "🏢", "4.6", 73,
         Some(40), Some(35), "25",
         "Ekonomik ve merkezi konumda tek kişilik oda.",
         ["WiFi", "Klima", "Ortak Mutfak"], Some(DefaultOwnerAddress))
  ]

  /** An owner key the page is willing to pay: present, 56 characters long and
      not a placeholder. */
  predicate PayableOwner(owner: Option<string>)
  {
    owner.Some? && |owner.value| == KeyLength && !StartsWith(owner.value, PlaceholderPrefix)
  }

  /** The payment destination for a room: its owner key when that key is
      payable, the default address otherwise (missing, empty, placeholder or
      wrong-length keys all fall back). */
  function SettlementAddress(owner: Option<string>): (r: string)
    ensures |r| == KeyLength && !StartsWith(r, PlaceholderPrefix)
    ensures PayableOwner(owner) ==> r == owner.value
    ensures !PayableOwner(owner) ==> r == DefaultOwnerAddress
    ensures owner == None || owner == Some("") ==> r == DefaultOwnerAddress
  {
    DefaultAddressPayable();
    var candidate := if owner.None? || owner.value == "" then DefaultOwnerAddress else owner.value;
    if StartsWith(candidate, PlaceholderPrefix) || |candidate| != KeyLength then DefaultOwnerAddress
    else candidate
  }

  /** Resolving an already resolved address changes nothing. */
  lemma SettlementAddressIdempotent(owner: Option<string>)
    ensures SettlementAddress(Some(SettlementAddress(owner))) == SettlementAddress(owner)
  {
  }

  /** Price times days plus deposit, in exact arithmetic. */
  function Charge(price: real, days: int, deposit: real): real
  {
    price * days as real + deposit
  }

  /** The amount charged for `days` days: price times days plus the deposit,
      NaN (None) when either amount does not parse. */
  function Quote(price: string, deposit: string, days: int): (r: Option<real>)
    ensures ParseFloat(price).None? || ParseFloat(deposit).None? ==> r == None
    ensures ParseFloat(price).Some? && ParseFloat(deposit).Some? ==>
              r == Some(Charge(ParseFloat(price).value, days, ParseFloat(deposit).value))
  {
    var p, d := ParseFloat(price), ParseFloat(deposit);
    if p.Some? && d.Some? then Some(Charge(p.value, days, d.value)) else None
  }

  /** A room priced 100 with deposit 50 costs 350 for three days. */
  lemma QuoteExample()
    ensures Quote("100", "50", 3) == Some(350.0)
  {
    assert NatToString(100) == "100" by {
      assert NatToString(1) == "1";
      assert NatToString(10) == "10";
    }
    assert NatToString(50) == "50" by {
      assert NatToString(5) == "5";
    }
    ParseFloatOfNat(100);
    ParseFloatOfNat(50);
  }

  lemma ChargeNextDay(price: real, days: int, deposit: real)
    ensures Charge(price, days + 1, deposit) == Charge(price, days, deposit) + price
  {
  }

  /** Each extra day adds exactly the daily price to the quote. */
  lemma QuoteAddsPricePerDay(price: string, deposit: string, days: int)
    requires Quote(price, deposit, days).Some?
    ensures ParseFloat(price).Some?
    ensures Quote(price, deposit, days + 1) == Some(Quote(price, deposit, days).value + ParseFloat(price).value)
  {
    var p, d := ParseFloat(price), ParseFloat(deposit);
    assert p.Some? && d.Some?;
    ChargeNextDay(p.value, days, d.value);
  }

  const MemoPrefix: string := "AirStellar: "
  const MemoSeparator: string := " - "
  const MemoSuffix: string := " gün"

  /** The payment memo naming the room and the duration. */
  function Memo(title: string, days: nat): (r: string)
  {
    MemoPrefix + title + MemoSeparator + NatToString(days) + MemoSuffix
  }

  /** The memo starts with the fixed prefix and the room title, ends with the
      day unit, and the digits between separator and unit read back as the
      number of days. */
  lemma MemoNamesRoomAndDuration(title: string, days: nat)
    ensures var r, head := Memo(title, days), |MemoPrefix| + |title| + |MemoSeparator|;
      head + |MemoSuffix| < |r| &&
      r[..|MemoPrefix| + |title|] == MemoPrefix + title &&
      r[|r| - |MemoSuffix|..] == MemoSuffix &&
      ParseNat(r[head..|r| - |MemoSuffix|]) == Some(days)
  {
    var r, head := Memo(title, days), |MemoPrefix| + |title| + |MemoSeparator|;
    var digits := NatToString(days);
    NatToStringRoundTrip(days);
    assert r == (MemoPrefix + title) + MemoSeparator + digits + MemoSuffix;
    assert r[head..|r| - |MemoSuffix|] == digits;
  }

  /** The request the page sends when `payer` rents `room` for `days` days. */
  function RentalRequest(room: Room, payer: string, days: nat): (q: PaymentRequest)
    ensures q.from == payer && q.amount == Quote(room.price, room.deposit, days)
    ensures PayableOwner(room.ownerPublicKey) ==> q.to == room.ownerPublicKey.value
    ensures !PayableOwner(room.ownerPublicKey) ==> q.to == DefaultOwnerAddress
    ensures q.memo == Memo(room.title, days)
  {
    PaymentRequest(payer, SettlementAddress(room.ownerPublicKey),
                   Quote(room.price, room.deposit, days), Memo(room.title, days))
  }

  /** The listing form is complete enough to mint: title, price and location
      are non-empty and a key is connected. Deposit and token supply are not
      checked. */
  predicate ListingAccepted(form: ListingForm, publicKey: string)
  {
    form.title != "" && form.price != "" && form.location != "" && publicKey != ""
  }

  /** The room minted from the form: every token is available, the connected
      key owns it, and it starts with no reviews and a 5.0 rating. */
  function MintRoom(form: ListingForm, owner: string, id: int, image: string): (r: Room)
    ensures r.available == r.tokenSupply == ParseInt(form.tokenSupply)
    ensures r.ownerPublicKey == Some(owner) && r.reviews == 0 && r.rating == "5.0"
    ensures r.title == form.title && r.location == form.location && r.price == form.price
    ensures r.deposit == form.deposit && r.id == id
  {
    Room(id, form.title, form.location, form.price, image, "5.0", 0,
         ParseInt(form.tokenSupply), ParseInt(form.tokenSupply), form.deposit,
         form.description, form.amenities, Some(owner))
  }

  /** The rental record written after a successful payment. */
  function NewRental(id: int, room: Room, days: int, startDate: string, hash: Option<string>): (r: Rental)
    ensures r.status == Active && r.room == room && r.days == days && r.transactionHash == hash
    ensures r.totalCost == Quote(room.price, room.deposit, days)
  {
    Rental(id, room, days, Quote(room.price, room.deposit, days), startDate, hash, Active)
  }

  /** Tokens sold times the daily price. */
  function Earned(supply: int, available: int, price: real): real
  {
    (supply - available) as real * price
  }

  /** The dashboard's revenue figure `(tokenSupply - available) * price`. */
  function Revenue(room: Room): (r: Option<real>)
    ensures r.Some? <==> room.tokenSupply.Some? && room.available.Some? && ParseFloat(room.price).Some?
    ensures r.Some? ==>
              r.value == (room.tokenSupply.value - room.available.value) as real * ParseFloat(room.price).value
  {
    var p := ParseFloat(room.price);
    if room.tokenSupply.Some? && room.available.Some? && p.Some? then
      Some(Earned(room.tokenSupply.value, room.available.value, p.value))
    else None
  }

  /** The rent button is disabled on a room whose owner key is the connected key. */
  predicate RentEnabled(room: Room, publicKey: string)
  {
    room.ownerPublicKey != Some(publicKey)
  }

  /** A room listed by a key cannot be rented with that same key. */
  lemma OwnListingNotRentable(form: ListingForm, owner: string, id: int, image: string)
    ensures !RentEnabled(MintRoom(form, owner, id, image), owner)
  {
  }

  /** Listing a room with token supply "30" mints 30 tokens, all available. */
  lemma ListingExample(owner: string, id: int, image: string)
    ensures var room := MintRoom(ListingForm("Suite", "X", "150", "", "30", "", []), owner, id, image);
      room.tokenSupply == Some(30) && room.available == Some(30)
  {
    assert NatToString(30) == "30" by {
      assert NatToString(3) == "3";
    }
    NatToStringRoundTrip(30);
  }
}
