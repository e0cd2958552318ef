# Solid wallet adapter: the list and connection logic, modelled in Dafny

This project models the three parts of the Solid port of the Solana wallet
adapter that hold the provider's logic:

- `useStandardWalletAdapters` and `wrapWalletsWithAdapters` (src/util.ts),
  module `StandardAdapters` in `util.dfy`:
  - they wrap wallet-standard wallets as adapters;
  - they follow the registry's `register` and `unregister` events;
  - they destroy wrappers that disappeared;
  - they merge the wrappers with the statically supplied adapters, warning
    once per shadowed name.
- `WalletProviderBase` (src/WalletProviderBase.tsx), module `ProviderBase`
  in `wallet_provider_base.dfy`. It holds:
  - the list of `{ adapter, readyState }` wallets and its reconciliation;
  - the connecting and disconnecting flags;
  - `connect`, `disconnect` and auto-connect, with their guards;
  - the guards of `sendTransaction` and the `sign*` operations;
  - the error sink `handleErrorRef`.
- `WalletProvider` (src/WalletProvider.tsx), module `Provider` in
  `wallet_provider.dfy`. It holds:
  - the selection by stored wallet name and `changeWallet`/`selectWallet`;
  - clearing the selection on disconnect and on connect errors;
  - the sticky "user has selected" and "page is unloading" flags;
  - the auto-connect request.

`prelude.dfy` (`Option`, `Filter` as JavaScript's `filter`, subsequence and
duplicate-freedom facts) and `adapters.dfy` (adapters, wallets, ready
states, errors, calls made on adapters) hold the shared vocabulary.

How the model is built:

- **Adapters.** Adapters are records. The object identity the source
  compares with `===` is the adapter's `id`. Wrappers built from standard
  wallets get fresh `WrapperId`s from a counter that stands for `new`.
- **Components.** Each component is a class. Its signals are fields. Each
  effect, event handler and operation is a method that the environment
  calls.
- **Async operations.** Each one is a `…Begin` method, which runs up to the
  `await`, and a `…Settle` method, which runs the `catch`/`finally`. The
  settle step is told whether the awaited call failed.
- **Observable effects.** These are `console.warn`, `destroy()`, the calls
  made on adapters, the error sink, `onConnectError` and the writes of the
  stored name. They are recorded in ghost logs, so their content and their
  order can be stated.

The model follows the code as written, including these behaviours:

- The `unregister` handler (src/util.ts:26-31) keeps the wrappers whose
  wallet *is* among the unregistered ones and drops all the others
  (`UnregisterAsWritten`, `UnregisterKeepsTheUnregistered`).
- The removal effect (src/util.ts:37-49) compares the current list with the
  list taken when the hook was set up. So:
  - an adapter it destroyed is destroyed again every time the list changes
    later (`RemovedAgainAfterRegister`);
  - wrappers registered later are never destroyed by it.
- The reconciliation (src/WalletProviderBase.tsx:75-90) compares each new
  adapter with the entry at the same index of the previous, already
  filtered list. This only decides which entries are reused.
  `ReconciledAgrees` proves that the result names the same adapters with
  the same readyStates as a fresh wrapping.
- A readyState change from an adapter that is not in the list returns the
  previous list untouched (src/WalletProviderBase.tsx:98). An adapter that
  was filtered out as Unsupported therefore never comes back through this
  path.
- The adapter's `disconnect` event clears the stored name directly
  (src/WalletProvider.tsx:60). It does not go through `changeWallet`, so it
  calls no further `disconnect`.

## Model

| member | source | states |
|---|---|---|
| StandardAdapters.WrapWalletsWithAdapters | src/util.ts:77-83 | defined by its body (filter the compatible wallets, then wrap each in a new adapter); WrapWalletsShape, WrapWalletsInOrder and WrappersAreFresh state its properties |
| StandardAdapters.WrapWalletsShape | src/util.ts:77-83 | every wrapper carries a compatible input wallet under its name and reports Installed; every compatible wallet gets a wrapper; incompatible wallets are dropped |
| StandardAdapters.WrapWalletsInOrder | src/util.ts:77-83 | exactly one wrapper per compatible wallet: the i-th wrapper wraps the i-th compatible wallet, and the compatible wallets are a subsequence of the input, so input order is kept |
| StandardAdapters.WrappersAreFresh | src/util.ts:82 | the wrappers of one call are pairwise distinct new objects, numbered from the next free identity |
| StandardAdapters.UnregisterAsWritten | src/util.ts:26-31 | the handler's result is a subsequence of the previous list, holding exactly the wrappers whose wallet is among the event's wallets |
| StandardAdapters.UnregisterKeepsTheUnregistered | src/util.ts:26-31 | with two registered wallets, unregistering the first leaves only the first one's wrapper |
| StandardAdapters.Removed | src/util.ts:42-47 | the adapters to destroy are exactly those of the snapshot absent from the current list, in snapshot order |
| StandardAdapters.RemovedAgainAfterRegister | src/util.ts:37-49 | an adapter removed once is still in the removal set after later registrations, so it is destroyed again |
| StandardAdapters.MergedList | src/util.ts:56-74 | defined by its body (the standard adapters followed by the static adapters whose name is free); MergedListShape, StaticKeptIffNameFree and SelectionInMergedList state its properties |
| StandardAdapters.MergedListShape | src/util.ts:56-74 | the result starts with the standard adapters in order, followed by a subsequence of the static adapters; exactly the static adapters with a free name are kept; length between the standard count and the sum of both |
| StandardAdapters.StaticKeptIffNameFree | src/util.ts:58-72 | a static adapter is in the result iff no standard adapter has its name |
| StandardAdapters.NewWarnings | src/util.ts:59-70 | defined by its body (the names warned, in order, as the filter walks the static adapters); NewWarningsDistinct, NewWarningsStep and NewWarningsComplete state its properties |
| StandardAdapters.NewWarningsDistinct | src/util.ts:64-69 | the names warned during one merge are distinct, colliding, and not already in the warnings set |
| StandardAdapters.NewWarningsStep | src/util.ts:59-70 | one more static adapter adds its name to the warnings iff it collides and is neither in the set nor already warned in this pass |
| StandardAdapters.NewWarningsComplete | src/util.ts:64-69 | every colliding name not in the set is warned during the merge |
| StandardAdapters.StandardWalletAdapters.constructor | src/util.ts:12-16 | set-up wraps the registered wallets, takes the snapshot, empty warnings set, nothing destroyed |
| StandardAdapters.StandardWalletAdapters.Register | src/util.ts:20-25 | the old list is kept as a prefix and the new wallets' wrappers are appended in event order; identities stay unique |
| StandardAdapters.StandardWalletAdapters.Unregister | src/util.ts:26-31 | the list becomes the handler's result as written; invariants kept |
| StandardAdapters.StandardWalletAdapters.DestroyRemoved | src/util.ts:39-49 | exactly the removed adapters are destroyed, in snapshot order |
| StandardAdapters.StandardWalletAdapters.Teardown | src/util.ts:52-54 | every adapter of the current list is destroyed, in order |
| StandardAdapters.StandardWalletAdapters.WarnOnce | src/util.ts:64-69 | a name is added to the set and warned iff it was not in the set; the set equals the warned names, without repeats |
| StandardAdapters.StandardWalletAdapters.VisitStatic | src/util.ts:59-72 | one callback step: the adapter is kept iff its name is free, and the warned names grow exactly as the warning sequence does; the set keeps matching them |
| StandardAdapters.StandardWalletAdapters.FilterShadowed | src/util.ts:58-73 | the filter pass keeps exactly the static adapters with a free name, in order, and warns exactly the new colliding names, each once |
| StandardAdapters.StandardWalletAdapters.Merge | src/util.ts:56-74 | returns the merged list and logs exactly the new warnings, keeping each name warned at most once |
| ProviderBase.InitialWallets | src/WalletProviderBase.tsx:63-70 | defined by its body (snapshot every adapter, then drop the Unsupported ones); InitialWalletsShape and InitialWalletsSupported state its properties |
| ProviderBase.InitialWalletsShape | src/WalletProviderBase.tsx:63-70 | the initial list is one snapshot per adapter that is not Unsupported, in adapter order, with the adapter's readyState |
| ProviderBase.InitialWalletsSupported | src/WalletProviderBase.tsx:69 | no entry of the initial list is Unsupported |
| ProviderBase.Reconciled | src/WalletProviderBase.tsx:75-90 | defined by its body (reuse the previous entry at the same index when it matches, then drop the Unsupported ones); ReconciledAgrees states its properties |
| ProviderBase.ReconciledAgrees | src/WalletProviderBase.tsx:75-90 | the reconciled list names the same adapters with the same readyStates as a fresh wrapping and holds no Unsupported entry |
| ProviderBase.FindWalletIndex | src/WalletProviderBase.tsx:97 | the index of the first entry for the adapter, or -1 iff there is none |
| ProviderBase.ReadyStateChanged | src/WalletProviderBase.tsx:96-109 | defined by its body (splice a new entry in at the found index, then drop the Unsupported ones); ReadyStateChangedSafe, ReadyStateChangedReplaces and ReadyStateChangedRemoves state its properties |
| ProviderBase.ReadyStateChangedSafe | src/WalletProviderBase.tsx:96-109 | a change for an adapter not in the list leaves it unchanged; a list without Unsupported entries keeps having none |
| ProviderBase.SpliceFiltered | src/WalletProviderBase.tsx:102-108 | on a list without Unsupported entries, the filter leaves the entries before and after the changed one untouched |
| ProviderBase.ReadyStateChangedReplaces | src/WalletProviderBase.tsx:96-109 | a supported readyState replaces only the changed adapter's entry, with the same adapter; every other entry keeps its place |
| ProviderBase.ReadyStateChangedRemoves | src/WalletProviderBase.tsx:96-109 | an Unsupported readyState removes exactly the changed adapter's entry and keeps the others in order |
| ProviderBase.FindWallet | src/WalletProviderBase.tsx:123-125 | the first entry of the selected adapter (the entry at FindWalletIndex), or none iff no adapter is selected or it is not in the list |
| ProviderBase.HandleErrorRef | src/WalletProviderBase.tsx:44-60 | the sink returns the error it was given; it does nothing while unloading; otherwise it forwards to `onError` if there is one, else logs, opening the URL only for a not-ready error with an adapter |
| ProviderBase.ConnectGate | src/WalletProviderBase.tsx:261-273 | connect does nothing while connecting, disconnecting or while the selected adapter itself reports connected; it refuses with WalletNotSelectedError without a wallet and with WalletNotReadyError when the wallet is not Installed or Loadable; otherwise it starts on that wallet's adapter |
| ProviderBase.SendTransactionGuard | src/WalletProviderBase.tsx:216-218 | WalletNotSelectedError iff no adapter, WalletNotConnectedError iff an adapter is present but not connected, proceed otherwise |
| ProviderBase.SignGuard | src/WalletProviderBase.tsx:227-259 | nothing happens iff the adapter does not offer the feature; all but sign-in need a connection and otherwise raise WalletNotConnectedError |
| ProviderBase.WalletProviderBase.constructor | src/WalletProviderBase.tsx:28-70 | flags false, public key and connected taken from the adapter, initial wallet list, empty logs |
| ProviderBase.WalletProviderBase.SetProps | src/WalletProvider.tsx:119-128 | the parent's flag-like props replace the old ones |
| ProviderBase.WalletProviderBase.ReconcileWallets | src/WalletProviderBase.tsx:73-90 | the list becomes the reconciliation of the new adapters against the previous list; no Unsupported entry |
| ProviderBase.WalletProviderBase.OnReadyStateChange | src/WalletProviderBase.tsx:92-110 | the list becomes the readyState-changed list; no Unsupported entry |
| ProviderBase.WalletProviderBase.OnAdapterConnect | src/WalletProviderBase.tsx:130-137 | sets the public key and connected; clears the connecting and disconnecting flags |
| ProviderBase.WalletProviderBase.OnAdapterDisconnect | src/WalletProviderBase.tsx:139-148 | nothing changes while unloading; otherwise the key is cleared and every flag is reset |
| ProviderBase.WalletProviderBase.OnAdapterError | src/WalletProviderBase.tsx:150-152 | exactly one error-sink call with the selected adapter |
| ProviderBase.WalletProviderBase.AdapterChanged | src/WalletProviderBase.tsx:158-177 | on leaving an adapter, the disconnect handler's reset runs and the auto-connect attempt flag is cleared; without a previous adapter nothing but the prop changes |
| ProviderBase.WalletProviderBase.AutoConnectBegin | src/WalletProviderBase.tsx:180-196 | fires iff not yet attempted, not connecting, not connected, a request handler exists and the wallet is Installed or Loadable; firing sets the attempt flag and both connecting flags |
| ProviderBase.WalletProviderBase.AutoConnectSettle | src/WalletProviderBase.tsx:197-207 | a failure calls `onConnectError` once and is dropped; both connecting flags end false |
| ProviderBase.WalletProviderBase.ConnectBegin | src/WalletProviderBase.tsx:261-277 | outcome is the gate's on the adapter's live `connected`; a refusal makes one sink call with the right error and adapter and leaves the flags; a start sets both flags and calls the adapter's `connect` |
| ProviderBase.WalletProviderBase.ConnectSettle | src/WalletProviderBase.tsx:276-285 | both connecting flags end false; a failure calls `onConnectError` once and rethrows the same error |
| ProviderBase.WalletProviderBase.DisconnectBegin | src/WalletProviderBase.tsx:287-294 | does nothing while disconnecting or without an adapter; otherwise sets both flags and calls the adapter's `disconnect` |
| ProviderBase.WalletProviderBase.DisconnectSettle | src/WalletProviderBase.tsx:293-299 | both disconnecting flags end false whether or not it failed; a failure propagates unchanged |
| ProviderBase.WalletProviderBase.SendTransaction | src/WalletProviderBase.tsx:211-224 | a refusal makes one sink call and is thrown; otherwise the adapter's `sendTransaction` is called |
| ProviderBase.WalletProviderBase.Sign | src/WalletProviderBase.tsx:226-259 | an unoffered feature does nothing; a refusal makes one sink call and is thrown; otherwise the adapter's operation is called |
| Provider.FirstNamed | src/WalletProvider.tsx:42 | the index of the first adapter with the name, or -1 iff none has it |
| Provider.FindByName | src/WalletProvider.tsx:40-44 | the adapter of the list at the first index carrying the stored name; none iff no name is stored or no adapter carries it |
| Provider.FindByOwnName | src/WalletProvider.tsx:40-44 | with distinct names, every adapter is selected by its own name |
| Provider.FindByNameFilter | src/WalletProvider.tsx:42 | a filter that keeps every adapter of the name does not change which one is found |
| Provider.SelectionInMergedList | src/WalletProvider.tsx:40-44 | in the merged list, a name carried by a standard wallet selects the first such wrapper; any other name selects the first static adapter of that name |
| Provider.HasAutoConnectHandler | src/WalletProvider.tsx:73-74 | a handler exists iff an adapter is selected and `autoConnect` is true or a predicate; none when it is unset or false |
| Provider.AutoConnectCallFor | src/WalletProvider.tsx:75-89 | a call is made iff `autoConnect` is true or its predicate answers true; it is `connect` iff the user has selected a wallet, `autoConnect` otherwise |
| Provider.WalletProvider.constructor | src/WalletProvider.tsx:27-38 | no stored name, so no adapter selected; both flags false; empty trace |
| Provider.WalletProvider.ChangeWallet | src/WalletProvider.tsx:46-52 | the same name changes nothing; another name disconnects the old adapter, if any, and then stores the name; the flags never go back |
| Provider.WalletProvider.SelectWallet | src/WalletProvider.tsx:114-117 | sets the "user has selected" flag, then behaves as `changeWallet` |
| Provider.WalletProvider.HandleConnectError | src/WalletProvider.tsx:110-112 | clears the selection through `changeWallet(null)` |
| Provider.WalletProvider.OnAdapterDisconnect | src/WalletProvider.tsx:54-68 | with an adapter selected and not unloading, the name is cleared by one store write and no disconnect call; otherwise nothing changes |
| Provider.WalletProvider.OnBeforeUnload | src/WalletProvider.tsx:92-108 | the unloading flag becomes true and stays so |
| Provider.WalletProvider.RunAutoConnectRequest | src/WalletProvider.tsx:73-90 | the call made is the auto-connect choice for the current policy, selection flag and adapter, and it is the only effect |

## Left out

- `useLocalStorage` (src/useLocalStorage.ts) is not part of this model. The stored name is a plain field that starts empty, and writes to it are recorded in the trace. Browser storage, JSON encoding and the storage key are not modelled.
- `ConnectionProvider` and `useWallet` (src/ConnectionProvider.tsx, src/useWallet.ts) only build and look up framework contexts, so they are not modelled.
- The Solid runtime is replaced by explicit method calls. That covers effect scheduling, dependency tracking, memo equality and batching. In Solid, a function returned from `createEffect` is not a clean-up: it is the value handed to the next run, and clean-ups need `onCleanup`. The clean-ups written that way are modelled as the code's evident intent, as explicit methods. They are `AdapterChanged` and `Teardown`, plus the implied removal of listeners. As written, none of these clean-ups runs, and the model does not capture what follows from that:
  - the one-shot auto-connect flag is never reset (src/WalletProviderBase.tsx:171-177), so auto-connect is tried at most once per provider;
  - the listeners added at src/WalletProvider.tsx:63 and src/WalletProviderBase.tsx:154-156 stay on every adapter that was ever selected, so a `disconnect` event from an earlier adapter still clears the stored name and resets the connection flags;
  - the unmount clean-up at src/util.ts:52-54 destroys nothing.
- The list returned by `useStandardWalletAdapters` is read once, when `WalletProvider` is set up. So `Provider.WalletProvider` keeps a fixed adapter list, and later registry changes do not reach it.
- The registry's `register`/`unregister` subscriptions, adapter event subscriptions and the window `beforeunload` listener are modelled only as methods the environment calls.
- `ConnectBegin`: the adapter's live `connected` property is an observation the environment supplies as an argument. Stored wallet entries are snapshots of an adapter's name and readyState, and the model does not track an adapter's other mutable properties through them.
- `WrapWallet`, `WrapWalletsShape`: a new wrapper's initial connection status and public key belong to the external `StandardWalletAdapter` class. The model fills in a disconnected wrapper with no key, and no contract states anything about these two fields.
- The model takes a browser for granted in the `typeof window` checks. This fixes the wrapper's readyState at Installed and always allows opening the adapter's URL.
- `console.warn`, `console.error`, `window.open` and `destroy()` are recorded only as ghost log entries.
- Adapter internals are opaque. These are `connect`, `autoConnect`, `disconnect`, `sendTransaction`, the `sign*` operations, and the `StandardWalletAdapter` class. `isWalletAdapterCompatibleStandardWallet` is a flag on the wallet, and the public key is an opaque value. The operations' arguments and results (transactions, messages, signatures) are not modelled.
- Interleavings of concurrent async operations are not modelled. An example is a connect that settles after the wallet was switched. Each operation is a begin step followed by its settle step.
- The two components are not composed into one object. `WalletProviderBase` receives what `WalletProvider` computes as props, through `SetProps` and `AdapterChanged`. Those values are `SelectedAdapter`, `OffersAutoConnectRequest` and the unloading flag.
