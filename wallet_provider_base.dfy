/**
 * `WalletProviderBase` (src/WalletProviderBase.tsx): the wallet list with
 * its readyState snapshots, the connection flags of the selected adapter,
 * the connect/disconnect operations with their guards, auto-connect, the
 * transaction and signing guards, and the error sink.
 *
 * Reactive cells are fields of the class WalletProviderBase; each effect,
 * event handler and operation is a method the environment calls. An async
 * operation is a Begin step (up to its `await`) and a Settle step (its
 * `catch`/`finally`), told whether the awaited adapter call failed.
 */
module ProviderBase {
  import opened Prelude
  import opened Adapters

  predicate IsSupported(w: Wallet)
  {
    w.readyState != Unsupported
  }

  predicate AdapterSupported(a: Adapter)
  {
    a.readyState != Unsupported
  }

  predicate NoUnsupported(ws: seq<Wallet>)
  {
    forall i :: 0 <= i < |ws| ==> ws[i].readyState != Unsupported
  }

  /** `{ adapter, readyState: adapter.readyState }` */
  function Snapshot(a: Adapter): Wallet
  {
    Wallet(a, a.readyState)
  }

  /** One snapshot per adapter, in order. */
  function Snapshots(adapters: seq<Adapter>): seq<Wallet>
  {
    seq(|adapters|, i requires 0 <= i < |adapters| => Snapshot(adapters[i]))
  }

  /** The initial wallet list (lines 63-70): snapshot every adapter, then drop the Unsupported ones. */
  function InitialWallets(adapters: seq<Adapter>): seq<Wallet>
  {
    Filter(Snapshots(adapters), IsSupported)
  }

  lemma SnapshotsConcat(a: seq<Adapter>, b: seq<Adapter>)
    ensures Snapshots(a + b) == Snapshots(a) + Snapshots(b)
  {
  }

  /**
   * The initial list has one entry per adapter that is not Unsupported, in
   * adapter order, each carrying the adapter's current readyState.
   */
  lemma {:induction false} InitialWalletsShape(adapters: seq<Adapter>)
    ensures InitialWallets(adapters) == Snapshots(Filter(adapters, AdapterSupported))
  {
    if adapters != [] {
      var a, rest := adapters[0], adapters[1..];
      InitialWalletsShape(rest);
      assert Snapshots(adapters) == [Snapshot(a)] + Snapshots(rest) by {
        assert adapters == [a] + rest;
        SnapshotsConcat([a], rest);
      }
      if AdapterSupported(a) {
        assert Filter(adapters, AdapterSupported) == [a] + Filter(rest, AdapterSupported);
        SnapshotsConcat([a], Filter(rest, AdapterSupported));
      }
    }
  }

  /** No entry of the initial list is Unsupported. */
  lemma InitialWalletsSupported(adapters: seq<Adapter>)
    ensures NoUnsupported(InitialWallets(adapters))
  {
    var r := InitialWallets(adapters);
    assert forall i :: 0 <= i < |r| ==> IsSupported(r[i]);
  }

  /**
   * The reconciliation's map step (lines 77-88): keep the previous entry at
   * the same index when it is for the same adapter with the same readyState,
   * otherwise take a new snapshot. The previous list is the filtered one, so
   * indexes need not line up with the adapters.
   */
  function Reuse(a: Adapter, prev: seq<Wallet>, i: nat): Wallet
  {
    if i < |prev| && prev[i].adapter.id == a.id && prev[i].readyState == a.readyState then prev[i] else Snapshot(a)
  }

  /** The wallet list after the adapters prop changes (lines 75-90). */
  function Reconciled(adapters: seq<Adapter>, prev: seq<Wallet>): seq<Wallet>
  {
    Filter(seq(|adapters|, i requires 0 <= i < |adapters| => Reuse(adapters[i], prev, i)), IsSupported)
  }

  /** Entry by entry, the same adapter object with the same readyState. */
  predicate SameEntries(u: seq<Wallet>, v: seq<Wallet>)
  {
    |u| == |v| && forall i :: 0 <= i < |u| ==> u[i].adapter.id == v[i].adapter.id && u[i].readyState == v[i].readyState
  }

  lemma {:induction false} FilterSameEntries(u: seq<Wallet>, v: seq<Wallet>)
    requires SameEntries(u, v)
    ensures SameEntries(Filter(u, IsSupported), Filter(v, IsSupported))
  {
    if u != [] {
      FilterSameEntries(u[1..], v[1..]);
    }
  }

  /**
   * Reusing previous entries never changes what the list says: the
   * reconciled list names the same adapters with the same readyStates as a
   * fresh wrapping of the new adapters, and holds no Unsupported entry.
   */
  lemma ReconciledAgrees(adapters: seq<Adapter>, prev: seq<Wallet>)
    ensures SameEntries(Reconciled(adapters, prev), InitialWallets(adapters))
    ensures NoUnsupported(Reconciled(adapters, prev))
  {
    var mapped := seq(|adapters|, i requires 0 <= i < |adapters| => Reuse(adapters[i], prev, i));
    assert SameEntries(mapped, Snapshots(adapters));
    FilterSameEntries(mapped, Snapshots(adapters));
    var r := Reconciled(adapters, prev);
    assert forall i :: 0 <= i < |r| ==> IsSupported(r[i]);
  }

  /** `findIndex` of the entry whose adapter is the object `id`; -1 when there is none. */
  function FindWalletIndex(ws: seq<Wallet>, id: AdapterId): (r: int)
    ensures -1 <= r < |ws|
    ensures r == -1 <==> forall i :: 0 <= i < |ws| ==> ws[i].adapter.id != id
    ensures 0 <= r ==> ws[r].adapter.id == id && forall j :: 0 <= j < r ==> ws[j].adapter.id != id
  {
    if ws == [] then -1
    else if ws[0].adapter.id == id then 0
    else
      var k := FindWalletIndex(ws[1..], id);
      if k == -1 then -1 else k + 1
  }

  /** The list after `readyStateChange` from adapter `id` (lines 96-109). */
  function ReadyStateChanged(prev: seq<Wallet>, id: AdapterId, rs: ReadyState): seq<Wallet>
  {
    var index := FindWalletIndex(prev, id);
    if index == -1 then prev
    else Filter(prev[..index] + [Wallet(prev[index].adapter, rs)] + prev[index + 1..], IsSupported)
  }

  /**
   * A readyState change for an adapter not in the list leaves the list as it
   * is; a list without Unsupported entries keeps having none.
   */
  lemma ReadyStateChangedSafe(prev: seq<Wallet>, id: AdapterId, rs: ReadyState)
    ensures FindWalletIndex(prev, id) == -1 ==> ReadyStateChanged(prev, id, rs) == prev
    ensures NoUnsupported(prev) ==> NoUnsupported(ReadyStateChanged(prev, id, rs))
  {
    var r := ReadyStateChanged(prev, id, rs);
    if FindWalletIndex(prev, id) != -1 {
      assert forall i :: 0 <= i < |r| ==> IsSupported(r[i]);
    }
  }

  /**
   * On a list without Unsupported entries, rewriting the entry at index k
   * and filtering leaves the entries before and after it as they are.
   */
  lemma SpliceFiltered(prev: seq<Wallet>, k: nat, entry: Wallet)
    requires NoUnsupported(prev)
    requires k < |prev|
    ensures Filter(prev[..k] + [entry] + prev[k + 1..], IsSupported) == prev[..k] + Filter([entry], IsSupported) + prev[k + 1..]
  {
    var before, after := prev[..k], prev[k + 1..];
    assert Filter(before, IsSupported) == before by {
      assert forall i :: 0 <= i < |before| ==> before[i] == prev[i];
      FilterAll(before, IsSupported);
    }
    assert Filter(after, IsSupported) == after by {
      assert forall i :: 0 <= i < |after| ==> after[i] == prev[k + 1 + i];
      FilterAll(after, IsSupported);
    }
    FilterConcat(before + [entry], after, IsSupported);
    FilterConcat(before, [entry], IsSupported);
  }

  /**
   * On a list without Unsupported entries, a supported readyState for the
   * adapter at index k replaces that entry's readyState and nothing else.
   */
  lemma ReadyStateChangedReplaces(prev: seq<Wallet>, id: AdapterId, rs: ReadyState)
    requires NoUnsupported(prev)
    requires FindWalletIndex(prev, id) != -1
    requires rs != Unsupported
    ensures var k := FindWalletIndex(prev, id);
      ReadyStateChanged(prev, id, rs) == prev[k := Wallet(prev[k].adapter, rs)]
  {
    var k := FindWalletIndex(prev, id);
    var entry := Wallet(prev[k].adapter, rs);
    SpliceFiltered(prev, k, entry);
    FilterSingleton(entry, IsSupported);
    SpliceIsUpdate(prev, k, entry);
  }

  /**
   * On a list without Unsupported entries, an Unsupported readyState for the
   * adapter at index k removes that entry and keeps the others in order.
   */
  lemma ReadyStateChangedRemoves(prev: seq<Wallet>, id: AdapterId)
    requires NoUnsupported(prev)
    requires FindWalletIndex(prev, id) != -1
    ensures var k := FindWalletIndex(prev, id);
      ReadyStateChanged(prev, id, Unsupported) == prev[..k] + prev[k + 1..]
  {
    var k := FindWalletIndex(prev, id);
    var entry := Wallet(prev[k].adapter, Unsupported);
    assert ReadyStateChanged(prev, id, Unsupported) == prev[..k] + Filter([entry], IsSupported) + prev[k + 1..] by {
      SpliceFiltered(prev, k, entry);
    }
    assert Filter([entry], IsSupported) == [] by {
      FilterSingleton(entry, IsSupported);
    }
    assert prev[..k] + [] == prev[..k];
  }

  /**
   * The `wallet` memo (`find`): the first entry of the selected adapter, if
   * it is in the list. The list may hold an adapter twice.
   */
  function FindWallet(ws: seq<Wallet>, adapter: Option<Adapter>): (r: Option<Wallet>)
    ensures r.Some? ==> adapter.Some? && r.value in ws && r.value.adapter.id == adapter.value.id
    ensures r.Some? ==> 0 <= FindWalletIndex(ws, adapter.value.id) && r.value == ws[FindWalletIndex(ws, adapter.value.id)]
    ensures r.None? <==> adapter.None? || forall i :: 0 <= i < |ws| ==> ws[i].adapter.id != adapter.value.id
  {
    if adapter.None? then None
    else
      var k := FindWalletIndex(ws, adapter.value.id);
      if k == -1 then None else Some(ws[k])
  }

  /** What the error sink did with an error. */
  datatype SinkAction = Suppressed | ForwardedToOnError | Logged(openedUrl: bool)

  /** One call of the error sink: its arguments and what it did. */
  datatype SinkCall = SinkCall(error: WalletError, adapter: Option<Adapter>, action: SinkAction)

  /**
   * `handleErrorRef` (lines 44-60). While unloading it does nothing; else it
   * hands the error to `onError` when one is given, and otherwise logs it and,
   * for a not-ready error with an adapter, opens the adapter's URL. It always
   * returns the error it was given, which the callers then throw.
   */
  function HandleErrorRef(error: WalletError, adapter: Option<Adapter>, isUnloading: bool, hasOnError: bool): (r: SinkCall)
    ensures r.error == error && r.adapter == adapter
    ensures r.action == Suppressed <==> isUnloading
    ensures r.action == ForwardedToOnError <==> !isUnloading && hasOnError
    ensures r.action == Logged(true) <==> !isUnloading && !hasOnError && error == WalletNotReadyError && adapter.Some?
  {
    var action :=
      if isUnloading then Suppressed
      else if hasOnError then ForwardedToOnError
      else Logged(error == WalletNotReadyError && adapter.Some?);
    SinkCall(error, adapter, action)
  }

  /** How `connect` starts. */
  datatype ConnectStart = AlreadyBusy | Refused(error: WalletError) | Started(adapter: Adapter)

  /**
   * The guards of `connect` (lines 263-274): nothing to do while connecting,
   * disconnecting or while the selected wallet's adapter is connected;
   * refused without a selected wallet, or when its readyState is neither
   * Installed nor Loadable. `adapterConnected` is the adapter object's live
   * `connected` property at the time of the call, not a field of the stored
   * wallet entry, which can be older than the adapter's own state.
   */
  function ConnectGate(isConnecting: bool, isDisconnecting: bool, wallet: Option<Wallet>, adapterConnected: bool): (r: ConnectStart)
    ensures r == AlreadyBusy <==> isConnecting || isDisconnecting || (wallet.Some? && adapterConnected)
    ensures r == Refused(WalletNotSelectedError) <==> !isConnecting && !isDisconnecting && wallet.None?
    ensures r == Refused(WalletNotReadyError) <==>
      !isConnecting && !isDisconnecting && wallet.Some? && !adapterConnected && !IsReady(wallet.value.readyState)
    ensures r.Started? <==>
      !isConnecting && !isDisconnecting && wallet.Some? && !adapterConnected && IsReady(wallet.value.readyState)
    ensures r.Started? ==> wallet.Some? && r.adapter == wallet.value.adapter
  {
    if isConnecting || isDisconnecting || (wallet.Some? && adapterConnected) then AlreadyBusy
    else if wallet.None? then Refused(WalletNotSelectedError)
    else if !IsReady(wallet.value.readyState) then Refused(WalletNotReadyError)
    else Started(wallet.value.adapter)
  }

  /** The outcome of a guarded pass-through operation. */
  datatype Guard = Proceed | Throw(error: WalletError) | NotOffered

  /** The guards of `sendTransaction` (lines 217-219). */
  function SendTransactionGuard(adapter: Option<Adapter>, connected: bool): (r: Guard)
    ensures r == Throw(WalletNotSelectedError) <==> adapter.None?
    ensures r == Throw(WalletNotConnectedError) <==> adapter.Some? && !connected
    ensures r == Proceed <==> adapter.Some? && connected
  {
    if adapter.None? then Throw(WalletNotSelectedError)
    else if !connected then Throw(WalletNotConnectedError)
    else Proceed
  }

  /**
   * The guards of the signing operations (lines 228-260): they do nothing
   * unless the adapter offers the feature; all but sign-in then require a
   * connection.
   */
  function SignGuard(feature: Feature, adapter: Option<Adapter>, connected: bool): (r: Guard)
    ensures r == NotOffered <==> adapter.None? || feature !in adapter.value.features
    ensures r == Throw(WalletNotConnectedError) <==>
      adapter.Some? && feature in adapter.value.features && feature != SignIn && !connected
    ensures r == Proceed <==> adapter.Some? && feature in adapter.value.features && (feature == SignIn || connected)
  {
    if adapter.None? || feature !in adapter.value.features then NotOffered
    else if feature != SignIn && !connected then Throw(WalletNotConnectedError)
    else Proceed
  }

  /**
   * The component's state. The props are fields the parent sets; the cells
   * are the signals of the source. The ghost logs record the calls the
   * component makes: to the error sink, to the adapter, to `onConnectError`.
   */
  class WalletProviderBase {
    // props
    var propsWallets: seq<Adapter>
    var adapter: Option<Adapter>
    var isUnloadingRef: bool
    var hasAutoConnectRequest: bool
    var hasOnError: bool

    // cells
    var isConnectingRef: bool
    var connecting: bool
    var isDisconnectingRef: bool
    var disconnecting: bool
    var publicKey: Option<PublicKey>
    var connected: bool
    var didAttemptAutoConnectRef: bool
    var wallets: seq<Wallet>

    // observable effects
    ghost var sinkCalls: seq<SinkCall>
    ghost var adapterCalls: seq<AdapterCall>
    ghost var connectErrorCalls: nat

    /**
     * Every step sets each guard flag together with the flag it mirrors, and
     * the wallet list never holds an Unsupported entry.
     */
    ghost predicate Valid()
      reads this
    {
      && isConnectingRef == connecting
      && isDisconnectingRef == disconnecting
      && NoUnsupported(wallets)
    }

    /** The `wallet` memo. */
    function CurrentWallet(): Option<Wallet>
      reads this
    {
      FindWallet(wallets, adapter)
    }

    constructor (adapters: seq<Adapter>, selected: Option<Adapter>, isUnloading: bool, autoConnectRequest: bool, onError: bool)
      ensures Valid()
      ensures propsWallets == adapters && adapter == selected && isUnloadingRef == isUnloading
      ensures hasAutoConnectRequest == autoConnectRequest && hasOnError == onError
      ensures wallets == InitialWallets(adapters)
      ensures publicKey == (if selected.Some? then selected.value.publicKey else None)
      ensures connected == (selected.Some? && selected.value.connected)
      ensures !isConnectingRef && !connecting && !isDisconnectingRef && !disconnecting && !didAttemptAutoConnectRef
      ensures sinkCalls == [] && adapterCalls == [] && connectErrorCalls == 0
    {
      propsWallets := adapters;
      adapter := selected;
      isUnloadingRef := isUnloading;
      hasAutoConnectRequest := autoConnectRequest;
      hasOnError := onError;
      isConnectingRef, connecting := false, false;
      isDisconnectingRef, disconnecting := false, false;
      publicKey := if selected.Some? then selected.value.publicKey else None;
      connected := selected.Some? && selected.value.connected;
      didAttemptAutoConnectRef := false;
      InitialWalletsSupported(adapters);
      wallets := InitialWallets(adapters);
      sinkCalls, adapterCalls, connectErrorCalls := [], [], 0;
    }

    /** The parent re-renders with new flag-like props. */
    method SetProps(isUnloading: bool, autoConnectRequest: bool, onError: bool)
      modifies this`isUnloadingRef, this`hasAutoConnectRequest, this`hasOnError
      ensures isUnloadingRef == isUnloading && hasAutoConnectRequest == autoConnectRequest && hasOnError == onError
    {
      isUnloadingRef, hasAutoConnectRequest, hasOnError := isUnloading, autoConnectRequest, onError;
    }

    /** The adapters prop changes: reconcile the wallet list (lines 75-90). */
    method ReconcileWallets(adapters: seq<Adapter>)
      requires Valid()
      modifies this`propsWallets, this`wallets
      ensures Valid()
      ensures propsWallets == adapters
      ensures wallets == Reconciled(adapters, old(wallets))
    {
      ReconciledAgrees(adapters, wallets);
      propsWallets := adapters;
      wallets := Reconciled(adapters, wallets);
    }

    /** An adapter of the list reports a new readyState (lines 92-110). */
    method OnReadyStateChange(id: AdapterId, rs: ReadyState)
      requires Valid()
      modifies this`wallets
      ensures Valid()
      ensures wallets == ReadyStateChanged(old(wallets), id, rs)
    {
      ReadyStateChangedSafe(wallets, id, rs);
      wallets := ReadyStateChanged(wallets, id, rs);
    }

    /** The adapter's `connect` event (lines 130-137). */
    method OnAdapterConnect(key: PublicKey)
      requires Valid()
      modifies this`publicKey, this`isConnectingRef, this`connecting, this`connected,
        this`isDisconnectingRef, this`disconnecting
      ensures Valid()
      ensures publicKey == Some(key) && connected
      ensures !isConnectingRef && !connecting && !isDisconnectingRef && !disconnecting
    {
      publicKey := Some(key);
      isConnectingRef, connecting := false, false;
      connected := true;
      isDisconnectingRef, disconnecting := false, false;
    }

    /** The adapter's `disconnect` event (lines 139-148): ignored while the page unloads. */
    method OnAdapterDisconnect()
      requires Valid()
      modifies this`publicKey, this`isConnectingRef, this`connecting, this`connected,
        this`isDisconnectingRef, this`disconnecting
      ensures Valid()
      ensures isUnloadingRef ==>
        && publicKey == old(publicKey) && connected == old(connected)
        && isConnectingRef == old(isConnectingRef) && connecting == old(connecting)
        && isDisconnectingRef == old(isDisconnectingRef) && disconnecting == old(disconnecting)
      ensures !isUnloadingRef ==>
        && publicKey == None && !connected
        && !isConnectingRef && !connecting && !isDisconnectingRef && !disconnecting
    {
      if !isUnloadingRef {
        publicKey := None;
        isConnectingRef, connecting := false, false;
        connected := false;
        isDisconnectingRef, disconnecting := false, false;
      }
    }

    /** The adapter's `error` event (lines 150-152): straight to the error sink. */
    method OnAdapterError(error: WalletError)
      modifies this`sinkCalls
      ensures sinkCalls == old(sinkCalls) + [HandleErrorRef(error, adapter, isUnloadingRef, hasOnError)]
    {
      sinkCalls := sinkCalls + [HandleErrorRef(error, adapter, isUnloadingRef, hasOnError)];
    }

    /**
     * The adapter prop changes. The effects set up for the previous adapter
     * are cleaned up first: the event subscription's clean-up runs the
     * disconnect handler (lines 158-164) and the auto-connect clean-up clears
     * the one-shot flag (lines 172-176); neither exists without an adapter.
     */
    method AdapterChanged(next: Option<Adapter>)
      requires Valid()
      modifies this`adapter, this`publicKey, this`isConnectingRef, this`connecting, this`connected,
        this`isDisconnectingRef, this`disconnecting, this`didAttemptAutoConnectRef
      ensures Valid()
      ensures adapter == next
      ensures old(adapter).Some? ==> !didAttemptAutoConnectRef
      ensures old(adapter).None? || isUnloadingRef ==>
        && publicKey == old(publicKey) && connected == old(connected)
        && isConnectingRef == old(isConnectingRef) && isDisconnectingRef == old(isDisconnectingRef)
      ensures old(adapter).Some? && !isUnloadingRef ==>
        publicKey == None && !connected && !isConnectingRef && !isDisconnectingRef
      ensures old(adapter).None? ==> didAttemptAutoConnectRef == old(didAttemptAutoConnectRef)
    {
      if adapter.Some? {
        OnAdapterDisconnect();
        didAttemptAutoConnectRef := false;
      }
      adapter := next;
    }

    /**
     * The auto-connect effect (lines 180-208) up to its `await`: it starts
     * only if it has not been attempted, nothing is connecting or connected,
     * a request handler exists and the selected wallet is Installed or
     * Loadable; starting sets the one-shot flag.
     */
    method AutoConnectBegin() returns (fired: bool)
      requires Valid()
      modifies this`isConnectingRef, this`connecting, this`didAttemptAutoConnectRef
      ensures Valid()
      ensures fired <==>
        && !old(didAttemptAutoConnectRef) && !old(isConnectingRef) && !connected && hasAutoConnectRequest
        && CurrentWallet().Some? && IsReady(CurrentWallet().value.readyState)
      ensures fired ==> isConnectingRef && connecting && didAttemptAutoConnectRef
      ensures !fired ==>
        && isConnectingRef == old(isConnectingRef) && connecting == old(connecting)
        && didAttemptAutoConnectRef == old(didAttemptAutoConnectRef)
    {
      var wallet := CurrentWallet();
      if didAttemptAutoConnectRef || isConnectingRef || connected || !hasAutoConnectRequest
        || !(wallet.Some? && IsReady(wallet.value.readyState))
      {
        return false;
      }
      isConnectingRef, connecting := true, true;
      didAttemptAutoConnectRef := true;
      return true;
    }

    /**
     * The auto-connect request settles: a failure is reported to
     * `onConnectError` and dropped; either way both connecting flags are
     * cleared.
     */
    method AutoConnectSettle(failed: bool)
      requires Valid()
      modifies this`isConnectingRef, this`connecting, this`connectErrorCalls
      ensures Valid()
      ensures !isConnectingRef && !connecting
      ensures connectErrorCalls == old(connectErrorCalls) + if failed then 1 else 0
    {
      if failed {
        connectErrorCalls := connectErrorCalls + 1;
      }
      connecting, isConnectingRef := false, false;
    }

    /**
     * `connect` (lines 262-278) up to its `await`. A refusal goes through the
     * error sink and leaves the connecting flags untouched; a start sets both
     * and calls the adapter's `connect`. `adapterConnected` is the selected
     * adapter's live `connected` property, observed at the call.
     */
    method ConnectBegin(adapterConnected: bool) returns (start: ConnectStart)
      requires Valid()
      modifies this`isConnectingRef, this`connecting, this`sinkCalls, this`adapterCalls
      ensures Valid()
      ensures start == ConnectGate(old(isConnectingRef), isDisconnectingRef, CurrentWallet(), adapterConnected)
      ensures start.Started? ==>
        && isConnectingRef && connecting
        && sinkCalls == old(sinkCalls) && adapterCalls == old(adapterCalls) + [ConnectCall(start.adapter.id)]
      ensures !start.Started? ==>
        && isConnectingRef == old(isConnectingRef) && connecting == old(connecting)
        && adapterCalls == old(adapterCalls)
      ensures start.AlreadyBusy? ==> sinkCalls == old(sinkCalls)
      ensures start == Refused(WalletNotSelectedError) ==>
        sinkCalls == old(sinkCalls) + [HandleErrorRef(WalletNotSelectedError, None, isUnloadingRef, hasOnError)]
      ensures start == Refused(WalletNotReadyError) ==>
        && CurrentWallet().Some?
        && sinkCalls == old(sinkCalls)
          + [HandleErrorRef(WalletNotReadyError, Some(CurrentWallet().value.adapter), isUnloadingRef, hasOnError)]
    {
      var wallet := CurrentWallet();
      start := ConnectGate(isConnectingRef, isDisconnectingRef, wallet, adapterConnected);
      match start {
        case AlreadyBusy =>
        case Refused(error) =>
          var culprit := if wallet.Some? then Some(wallet.value.adapter) else None;
          sinkCalls := sinkCalls + [HandleErrorRef(error, culprit, isUnloadingRef, hasOnError)];
        case Started(target) =>
          isConnectingRef, connecting := true, true;
          adapterCalls := adapterCalls + [ConnectCall(target.id)];
      }
    }

    /**
     * The adapter's `connect` settles (lines 279-285): a failure calls
     * `onConnectError` and is rethrown unchanged; either way both connecting
     * flags are cleared.
     */
    method ConnectSettle(failure: Option<WalletError>) returns (thrown: Option<WalletError>)
      requires Valid()
      modifies this`isConnectingRef, this`connecting, this`connectErrorCalls
      ensures Valid()
      ensures thrown == failure
      ensures !isConnectingRef && !connecting
      ensures connectErrorCalls == old(connectErrorCalls) + if failure.Some? then 1 else 0
    {
      if failure.Some? {
        connectErrorCalls := connectErrorCalls + 1;
      }
      connecting, isConnectingRef := false, false;
      thrown := failure;
    }

    /**
     * `disconnect` (lines 288-295) up to its `await`: nothing to do while
     * disconnecting or without an adapter; otherwise set both disconnecting
     * flags and call the adapter's `disconnect`.
     */
    method DisconnectBegin() returns (started: bool)
      requires Valid()
      modifies this`isDisconnectingRef, this`disconnecting, this`adapterCalls
      ensures Valid()
      ensures started <==> !old(isDisconnectingRef) && adapter.Some?
      ensures started ==> isDisconnectingRef && disconnecting && adapterCalls == old(adapterCalls) + [DisconnectCall(adapter.value.id)]
      ensures !started ==>
        isDisconnectingRef == old(isDisconnectingRef) && disconnecting == old(disconnecting) && adapterCalls == old(adapterCalls)
    {
      if isDisconnectingRef || adapter.None? {
        return false;
      }
      isDisconnectingRef, disconnecting := true, true;
      adapterCalls := adapterCalls + [DisconnectCall(adapter.value.id)];
      return true;
    }

    /**
     * The adapter's `disconnect` settles (lines 296-299): both disconnecting
     * flags are cleared whether it succeeded or failed; a failure propagates
     * to the caller unchanged.
     */
    method DisconnectSettle(failure: Option<WalletError>) returns (thrown: Option<WalletError>)
      requires Valid()
      modifies this`isDisconnectingRef, this`disconnecting
      ensures Valid()
      ensures thrown == failure
      ensures !isDisconnectingRef && !disconnecting
    {
      disconnecting, isDisconnectingRef := false, false;
      thrown := failure;
    }

    /** `sendTransaction` (lines 212-225): a refusal goes through the error sink and is thrown. */
    method SendTransaction() returns (outcome: Guard)
      modifies this`sinkCalls, this`adapterCalls
      ensures outcome == SendTransactionGuard(adapter, connected)
      ensures outcome.Throw? ==>
        sinkCalls == old(sinkCalls) + [HandleErrorRef(outcome.error, adapter, isUnloadingRef, hasOnError)]
        && adapterCalls == old(adapterCalls)
      ensures outcome.Proceed? ==>
        sinkCalls == old(sinkCalls) && adapterCalls == old(adapterCalls) + [SendTransactionCall(adapter.value.id)]
    {
      outcome := SendTransactionGuard(adapter, connected);
      if outcome.Throw? {
        sinkCalls := sinkCalls + [HandleErrorRef(outcome.error, adapter, isUnloadingRef, hasOnError)];
      } else {
        adapterCalls := adapterCalls + [SendTransactionCall(adapter.value.id)];
      }
    }

    /**
     * `signTransaction`, `signAllTransactions`, `signMessage`, `signIn`
     * (lines 228-260): an unoffered feature resolves to nothing, a refusal
     * goes through the error sink and is thrown.
     */
    method Sign(feature: Feature) returns (outcome: Guard)
      modifies this`sinkCalls, this`adapterCalls
      ensures outcome == SignGuard(feature, adapter, connected)
      ensures outcome.NotOffered? ==> sinkCalls == old(sinkCalls) && adapterCalls == old(adapterCalls)
      ensures outcome.Throw? ==>
        sinkCalls == old(sinkCalls) + [HandleErrorRef(outcome.error, adapter, isUnloadingRef, hasOnError)]
        && adapterCalls == old(adapterCalls)
      ensures outcome.Proceed? ==>
        sinkCalls == old(sinkCalls) && adapterCalls == old(adapterCalls) + [SignCall(adapter.value.id, feature)]
    {
      outcome := SignGuard(feature, adapter, connected);
      match outcome {
        case NotOffered =>
        case Throw(error) =>
          sinkCalls := sinkCalls + [HandleErrorRef(error, adapter, isUnloadingRef, hasOnError)];
        case Proceed =>
          adapterCalls := adapterCalls + [SignCall(adapter.value.id, feature)];
      }
    }
  }
}
