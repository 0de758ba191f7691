/** The wallet connection component (components/WalletConnection.tsx): its
    connected/disconnected state, the callbacks it makes to the page, and the
    short form of an address it displays. The wallet itself is abstract: a
    connect attempt either returns a key or fails. */
module Wallet {
  import opened JsString

  /** The shortened address shown in the header: the first six characters,
      an ellipsis and the last six. Slices clamp as in JavaScript, so an
      address shorter than six characters appears whole on both sides. */
  function FormatAddress(address: string): (r: string)
    ensures |address| >= 6 ==> r == address[..6] + "..." + address[|address| - 6..]
    ensures |address| >= 6 ==> |r| == 15
    ensures |address| < 6 ==> r == address + "..." + address
  {
    Slice(address, 0, 6) + "..." + SliceFrom(address, -6)
  }

  /** An empty address formats to a bare ellipsis. */
  lemma FormatEmptyAddress()
    ensures FormatAddress("") == "..."
  {
  }

  /** The component's observable state. */
  datatype WalletState = WalletState(publicKey: string, isConnected: bool, loading: bool)

  /** What the wallet answered to a connect request. */
  datatype ConnectOutcome = KeyReturned(key: string) | ConnectFailed(message: string)

  /** A callback made to the page. */
  datatype Notice = OnConnect(key: string) | OnDisconnect

  /** The state after a connect attempt: a returned key is stored and marks
      the wallet connected; a failure leaves key and flag as they were.
      Loading is over either way. */
  function AfterConnect(s: WalletState, outcome: ConnectOutcome): (t: WalletState)
    ensures !t.loading
    ensures outcome.KeyReturned? ==> t.publicKey == outcome.key && t.isConnected
    ensures outcome.ConnectFailed? ==> t.publicKey == s.publicKey && t.isConnected == s.isConnected
  {
    match outcome
    case KeyReturned(key) => WalletState(key, true, false)
    case ConnectFailed(_) => s.(loading := false)
  }

  /** The state after a disconnect: no key, not connected. */
  function AfterDisconnect(s: WalletState): (t: WalletState)
    ensures t.publicKey == "" && !t.isConnected && t.loading == s.loading
  {
    s.(publicKey := "", isConnected := false)
  }

  /** Disconnecting twice leaves the same state as disconnecting once. */
  lemma DisconnectIdempotent(s: WalletState)
    ensures AfterDisconnect(AfterDisconnect(s)) == AfterDisconnect(s)
  {
  }

  class WalletConnection {
    var publicKey: string
    var isConnected: bool
    var loading: bool
    /** Every callback made to the page so far, oldest first. */
    var notices: seq<Notice>

    function State(): WalletState
      reads this
    {
      WalletState(publicKey, isConnected, loading)
    }

    /** Between events nothing is loading, and a disconnected component holds no key. */
    ghost predicate Valid()
      reads this
    {
      !loading && (!isConnected ==> publicKey == "")
    }

    constructor ()
      ensures Valid()
      ensures State() == WalletState("", false, false) && notices == []
    {
      publicKey, isConnected, loading, notices := "", false, false, [];
    }

    /** The connect button. */
    method HandleConnect(outcome: ConnectOutcome)
      requires Valid()
      modifies this
      ensures Valid()
      ensures State() == AfterConnect(old(State()), outcome)
      ensures outcome.KeyReturned? ==> notices == old(notices) + [OnConnect(outcome.key)]
      ensures outcome.ConnectFailed? ==> notices == old(notices)
    {
      loading := true;
      match outcome {
        case KeyReturned(key) =>
          publicKey := key;
          isConnected := true;
          notices := notices + [OnConnect(key)];
        case ConnectFailed(_) =>
      }
      loading := false;
    }

    /** The disconnect button: always clears the key and tells the page. */
    method HandleDisconnect()
      requires Valid()
      modifies this
      ensures Valid()
      ensures State() == AfterDisconnect(old(State()))
      ensures notices == old(notices) + [OnDisconnect]
    {
      publicKey := "";
      isConnected := false;
      notices := notices + [OnDisconnect];
    }

    /** The header badge shown while connected. */
    function Badge(): (text: string)
      reads this
      ensures |publicKey| >= 6 ==> text == publicKey[..6] + "..." + publicKey[|publicKey| - 6..] && |text| == 15
      ensures |publicKey| < 6 ==> text == publicKey + "..." + publicKey
    {
      FormatAddress(publicKey)
    }
  }
}
