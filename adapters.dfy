/**
 * The external entities the provider works with. Adapters and standard
 * wallets belong to the wallet-adapter library; the provider only reads
 * their name, readyState and connection status and calls their operations,
 * so they are plain records here. An adapter's object identity (what the
 * source compares with `===`) is its `id`.
 */
module Adapters {
  import opened Prelude

  /** `WalletReadyState` of the wallet-adapter library. */
  datatype ReadyState = Unsupported | NotDetected | Installed | Loadable

  /** Only Installed and Loadable wallets may be asked to connect. */
  predicate IsReady(rs: ReadyState)
  {
    rs == Installed || rs == Loadable
  }

  /** An opaque public key; its bytes are never inspected. */
  datatype PublicKey = PublicKey(bytes: seq<bv8>)

  /** The optional operations an adapter may offer. */
  datatype Feature = SignTransaction | SignAllTransactions | SignMessage | SignIn

  /**
   * A wallet from the wallet-standard registry. `compatible` is the verdict of
   * `isWalletAdapterCompatibleStandardWallet`, whose logic is external.
   */
  datatype StandardWallet = StandardWallet(id: nat, name: string, compatible: bool, features: set<Feature>)

  /**
   * Object identity of an adapter. Statically supplied adapters and the
   * wrappers created around standard wallets come from different
   * constructors, so they can never be the same object.
   */
  datatype AdapterId = StaticId(n: nat) | WrapperId(n: nat)

  /**
   * An adapter as the provider sees it. `wallet` is present exactly for the
   * `StandardWalletAdapter` wrappers.
   */
  datatype Adapter = Adapter(
    id: AdapterId,
    name: string,
    readyState: ReadyState,
    connected: bool,
    publicKey: Option<PublicKey>,
    wallet: Option<StandardWallet>,
    features: set<Feature>)

  /** The `Wallet` interface of the context: an adapter and a snapshot of its readyState. */
  datatype Wallet = Wallet(adapter: Adapter, readyState: ReadyState)

  /** The error kinds the provider raises, plus any error an adapter raises itself. */
  datatype WalletError =
    | WalletNotSelectedError
    | WalletNotReadyError
    | WalletNotConnectedError
    | AdapterError(code: nat)

  /** Calls the provider makes on an adapter (their effect is the adapter's business). */
  datatype AdapterCall =
    | ConnectCall(target: AdapterId)
    | AutoConnectCall(target: AdapterId)
    | DisconnectCall(target: AdapterId)
    | SendTransactionCall(target: AdapterId)
    | SignCall(target: AdapterId, feature: Feature)

  /** No two adapters of the list are the same object. */
  predicate UniqueIds(s: seq<Adapter>)
  {
    forall i, j :: 0 <= i < j < |s| ==> s[i].id != s[j].id
  }

  /** Filtering a list of distinct adapters leaves them distinct. */
  lemma {:induction false} FilterUniqueIds(s: seq<Adapter>, p: Adapter -> bool)
    requires UniqueIds(s)
    ensures UniqueIds(Filter(s, p))
  {
    if s != [] {
      FilterUniqueIds(s[1..], p);
      var rest := Filter(s[1..], p);
      if p(s[0]) {
        var r := [s[0]] + rest;
        forall i, j | 0 <= i < j < |r| ensures r[i].id != r[j].id {
          if i == 0 {
            assert r[j] == rest[j - 1];
            assert r[j] in s[1..];
            var k :| 0 <= k < |s[1..]| && s[1..][k] == r[j];
            assert s[k + 1] == r[j];
          } else {
            assert r[i] == rest[i - 1] && r[j] == rest[j - 1];
          }
        }
      }
    }
  }
}
