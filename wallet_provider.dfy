/**
 * `WalletProvider` (src/WalletProvider.tsx): the selection controller. It
 * keeps the selected wallet's name, looks the adapter up by that name,
 * switches wallets (disconnecting the old adapter first), clears the
 * selection when the adapter disconnects or a connect fails, tracks the
 * sticky "user has selected" and "page is unloading" flags, and builds the
 * auto-connect request that WalletProviderBase runs.
 *
 * The stored name is a plain field that starts out empty; the writes that
 * would go to storage are recorded, together with the calls made on
 * adapters, in a ghost trace so that their order can be stated.
 */
module Provider {
  import opened Prelude
  import opened Adapters
  import opened StandardAdapters

  /** Index of the first adapter called `name`; -1 when there is none. */
  function FirstNamed(adapters: seq<Adapter>, name: string): (k: int)
    ensures -1 <= k < |adapters|
    ensures k == -1 <==> forall i :: 0 <= i < |adapters| ==> adapters[i].name != name
    ensures 0 <= k ==> adapters[k].name == name && forall j :: 0 <= j < k ==> adapters[j].name != name
  {
    if adapters == [] then -1
    else if adapters[0].name == name then 0
    else
      var k := FirstNamed(adapters[1..], name);
      if k == -1 then -1 else k + 1
  }

  /**
   * The `adapter` memo (lines 40-44): the first adapter whose name is the
   * stored name. No adapter is selected while no name is stored, since an
   * adapter's name is never null.
   */
  function FindByName(adapters: seq<Adapter>, name: Option<string>): (r: Option<Adapter>)
    ensures r.None? <==> name.None? || forall i :: 0 <= i < |adapters| ==> adapters[i].name != name.value
    ensures r.Some? ==> name.Some? && r.value.name == name.value
    ensures r.Some? ==> 0 <= FirstNamed(adapters, name.value) && r.value == adapters[FirstNamed(adapters, name.value)]
  {
    if name.None? then None
    else
      var k := FirstNamed(adapters, name.value);
      if k == -1 then None else Some(adapters[k])
  }

  /** In a list without two adapters of the same name, each adapter is found by its own name. */
  lemma FindByOwnName(adapters: seq<Adapter>, i: nat)
    requires i < |adapters|
    requires forall a, b :: 0 <= a < b < |adapters| ==> adapters[a].name != adapters[b].name
    ensures FindByName(adapters, Some(adapters[i].name)) == Some(adapters[i])
  {
    var k := FirstNamed(adapters, adapters[i].name);
    assert k != -1;
    assert k == i;
  }

  /** A name carried in `a` is found there, whatever follows. */
  lemma FindByNamePrefix(a: seq<Adapter>, b: seq<Adapter>, name: string)
    requires exists i :: 0 <= i < |a| && a[i].name == name
    ensures FindByName(a + b, Some(name)) == FindByName(a, Some(name))
  {
    assert forall j :: 0 <= j < |a| ==> (a + b)[j] == a[j];
  }

  /** A name no adapter of `a` carries is looked up in `b`. */
  lemma FindByNameSkips(a: seq<Adapter>, b: seq<Adapter>, name: string)
    requires forall i :: 0 <= i < |a| ==> a[i].name != name
    ensures FindByName(a + b, Some(name)) == FindByName(b, Some(name))
  {
    assert forall j :: 0 <= j < |a| ==> (a + b)[j] == a[j];
    assert forall j :: 0 <= j < |b| ==> (a + b)[|a| + j] == b[j];
  }

  /** A filter that keeps every adapter called `name` does not change which one is found first. */
  lemma {:induction false} FindByNameFilter(s: seq<Adapter>, p: Adapter -> bool, name: string)
    requires forall i :: 0 <= i < |s| && s[i].name == name ==> p(s[i])
    ensures FindByName(Filter(s, p), Some(name)) == FindByName(s, Some(name))
  {
    if s != [] {
      FindByNameFilter(s[1..], p, name);
      if s[0].name == name {
        FilterHeadNamed(s, p, name);
      } else {
        FilterHeadOther(s, p, name);
      }
    }
  }

  /** The first adapter carries the name and is kept: both lookups stop at it. */
  lemma FilterHeadNamed(s: seq<Adapter>, p: Adapter -> bool, name: string)
    requires s != [] && s[0].name == name && p(s[0])
    ensures FindByName(Filter(s, p), Some(name)) == FindByName(s, Some(name)) == Some(s[0])
  {
    assert s == [s[0]] + s[1..];
    var rest := Filter(s[1..], p);
    assert Filter(s, p) == [s[0]] + rest;
    FindByNamePrefix([s[0]], rest, name);
    FindByNamePrefix([s[0]], s[1..], name);
  }

  /** The first adapter carries another name: both lookups continue in the rest. */
  lemma FilterHeadOther(s: seq<Adapter>, p: Adapter -> bool, name: string)
    requires s != [] && s[0].name != name
    requires FindByName(Filter(s[1..], p), Some(name)) == FindByName(s[1..], Some(name))
    ensures FindByName(Filter(s, p), Some(name)) == FindByName(s, Some(name))
  {
    assert s == [s[0]] + s[1..];
    var rest := Filter(s[1..], p);
    FindByNameSkips([s[0]], s[1..], name);
    if p(s[0]) {
      assert Filter(s, p) == [s[0]] + rest;
      FindByNameSkips([s[0]], rest, name);
    } else {
      assert Filter(s, p) == rest;
    }
  }

  /**
   * Selecting by name in the merged adapter list: a name some standard
   * wallet carries selects the first such standard wrapper (the static
   * adapter of that name was dropped); any other name selects the first
   * static adapter of that name.
   */
  lemma SelectionInMergedList(standard: seq<Adapter>, statics: seq<Adapter>, name: string)
    ensures NameTaken(standard, name) ==> FindByName(MergedList(standard, statics), Some(name)) == FindByName(standard, Some(name))
    ensures !NameTaken(standard, name) ==> FindByName(MergedList(standard, statics), Some(name)) == FindByName(statics, Some(name))
  {
    var kept := Filter(statics, NameFree(standard));
    if NameTaken(standard, name) {
      FindByNamePrefix(standard, kept, name);
    } else {
      FindByNameSkips(standard, kept, name);
      FindByNameFilter(statics, NameFree(standard), name);
    }
  }

  /** The `autoConnect` prop: absent, a boolean, or an async predicate over the adapter. */
  datatype AutoConnectPolicy = Unset | Flag(enabled: bool) | Predicate

  /**
   * Whether `handleAutoConnectRequest` is a handler rather than undefined
   * (line 74): only when `autoConnect` is truthy and an adapter is selected.
   */
  function HasAutoConnectHandler(policy: AutoConnectPolicy, adapter: Option<Adapter>): (r: bool)
    ensures r <==> adapter.Some? && (policy == Flag(true) || policy == Predicate)
    ensures policy == Unset || policy == Flag(false) ==> !r
  {
    match policy
    case Unset => false
    case Flag(b) => b && adapter.Some?
    case Predicate => adapter.Some?
  }

  /**
   * The call the handler makes on the adapter (lines 75-89): with
   * `autoConnect` true, or a predicate that answers true, it is `connect`
   * once the user has picked a wallet and `autoConnect` otherwise; with a
   * predicate that answers false, nothing.
   */
  function AutoConnectCallFor(policy: AutoConnectPolicy, predicateAnswer: bool, hasUserSelected: bool, adapter: Adapter): (r: Option<AdapterCall>)
    ensures r.Some? <==> policy == Flag(true) || (policy == Predicate && predicateAnswer)
    ensures r == Some(ConnectCall(adapter.id)) <==> r.Some? && hasUserSelected
    ensures r == Some(AutoConnectCall(adapter.id)) <==> r.Some? && !hasUserSelected
  {
    var go := policy == Flag(true) || (policy.Predicate? && predicateAnswer);
    if !go then None
    else if hasUserSelected then Some(ConnectCall(adapter.id))
    else Some(AutoConnectCall(adapter.id))
  }

  /** What the controller does to the outside world, in order. */
  datatype Effect = AdapterInvoked(call: AdapterCall) | NameStored(name: Option<string>)

  /** `adapter()?.disconnect()` as an effect list. */
  function DisconnectOf(adapter: Option<Adapter>): seq<Effect>
  {
    if adapter.Some? then [AdapterInvoked(DisconnectCall(adapter.value.id))] else []
  }

  class WalletProvider {
    /** The merged adapter list, computed once when the component is set up. */
    const adapters: seq<Adapter>
    const autoConnect: AutoConnectPolicy

    var walletName: Option<string>
    var hasUserSelectedAWallet: bool
    var isUnloadingRef: bool
    ghost var trace: seq<Effect>

    /** The `adapter` memo. */
    function SelectedAdapter(): Option<Adapter>
      reads this
    {
      FindByName(adapters, walletName)
    }

    /** Whether the `onAutoConnectRequest` prop passed down is a handler. */
    function OffersAutoConnectRequest(): bool
      reads this
    {
      HasAutoConnectHandler(autoConnect, SelectedAdapter())
    }

    /** The two flags only ever go from false to true. */
    twostate predicate Sticky()
      reads this
    {
      && (old(hasUserSelectedAWallet) ==> hasUserSelectedAWallet)
      && (old(isUnloadingRef) ==> isUnloadingRef)
    }

    constructor (list: seq<Adapter>, policy: AutoConnectPolicy)
      ensures adapters == list && autoConnect == policy
      ensures walletName == None && SelectedAdapter() == None
      ensures !hasUserSelectedAWallet && !isUnloadingRef
      ensures trace == []
    {
      adapters := list;
      autoConnect := policy;
      walletName := None;
      hasUserSelectedAWallet := false;
      isUnloadingRef := false;
      trace := [];
    }

    /**
     * `changeWallet` (lines 46-52): the same name changes nothing, neither a
     * disconnect nor a store write; another name first disconnects the
     * adapter selected so far, if any, then stores the new name.
     */
    method ChangeWallet(next: Option<string>)
      modifies this`walletName, this`trace
      ensures Sticky()
      ensures old(walletName) == next ==> walletName == old(walletName) && trace == old(trace)
      ensures old(walletName) != next ==>
        && walletName == next
        && trace == old(trace) + DisconnectOf(old(SelectedAdapter())) + [NameStored(next)]
      ensures SelectedAdapter() == FindByName(adapters, next)
    {
      if walletName == next {
        return;
      }
      trace := trace + DisconnectOf(SelectedAdapter());
      walletName := next;
      trace := trace + [NameStored(next)];
    }

    /** `selectWallet` (lines 114-117): mark that the user chose, then change the wallet. */
    method SelectWallet(name: Option<string>)
      modifies this`hasUserSelectedAWallet, this`walletName, this`trace
      ensures Sticky()
      ensures hasUserSelectedAWallet
      ensures old(walletName) == name ==> walletName == old(walletName) && trace == old(trace)
      ensures old(walletName) != name ==>
        && walletName == name
        && trace == old(trace) + DisconnectOf(old(SelectedAdapter())) + [NameStored(name)]
      ensures SelectedAdapter() == FindByName(adapters, name)
    {
      hasUserSelectedAWallet := true;
      ChangeWallet(name);
    }

    /** `handleConnectError` (lines 110-112): a failed connect clears the selection. */
    method HandleConnectError()
      modifies this`walletName, this`trace
      ensures Sticky()
      ensures walletName == None && SelectedAdapter() == None
      ensures old(walletName) == None ==> trace == old(trace)
      ensures old(walletName) != None ==> trace == old(trace) + DisconnectOf(old(SelectedAdapter())) + [NameStored(None)]
    {
      ChangeWallet(None);
    }

    /**
     * The selected adapter's `disconnect` event (lines 54-68): unless the
     * page is unloading, the stored name is cleared directly, without
     * calling `disconnect` again. The model assumes that listeners follow
     * the selection, so without a selected adapter nothing is subscribed.
     */
    method OnAdapterDisconnect()
      modifies this`walletName, this`trace
      ensures Sticky()
      ensures old(SelectedAdapter()).Some? && !isUnloadingRef ==>
        walletName == None && SelectedAdapter() == None && trace == old(trace) + [NameStored(None)]
      ensures old(SelectedAdapter()).None? || isUnloadingRef ==> walletName == old(walletName) && trace == old(trace)
    {
      if SelectedAdapter().None? || isUnloadingRef {
        return;
      }
      walletName := None;
      trace := trace + [NameStored(None)];
    }

    /** The window's `beforeunload` event (lines 92-108). */
    method OnBeforeUnload()
      modifies this`isUnloadingRef
      ensures Sticky()
      ensures isUnloadingRef
    {
      isUnloadingRef := true;
    }

    /**
     * The auto-connect handler runs (lines 75-89). It exists only while an
     * adapter is selected and `autoConnect` is truthy; `predicateAnswer` is
     * what the `autoConnect` predicate resolved to, when it is one.
     */
    method RunAutoConnectRequest(predicateAnswer: bool) returns (call: Option<AdapterCall>)
      requires OffersAutoConnectRequest()
      modifies this`trace
      ensures call == AutoConnectCallFor(autoConnect, predicateAnswer, hasUserSelectedAWallet, SelectedAdapter().value)
      ensures trace == old(trace) + if call.Some? then [AdapterInvoked(call.value)] else []
    {
      call := AutoConnectCallFor(autoConnect, predicateAnswer, hasUserSelectedAWallet, SelectedAdapter().value);
      if call.Some? {
        trace := trace + [AdapterInvoked(call.value)];
      }
    }
  }
}
