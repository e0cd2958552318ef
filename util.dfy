/**
 * `useStandardWalletAdapters` and `wrapWalletsWithAdapters` (src/util.ts).
 *
 * The hook keeps the list of wrappers around the wallets of the
 * wallet-standard registry, updates it on the registry's `register` and
 * `unregister` events, destroys wrappers that disappeared, and merges the
 * list with the statically supplied adapters, warning once per name when a
 * static adapter is shadowed by a standard one.
 */
module StandardAdapters {
  import opened Prelude
  import opened Adapters

  /** The verdict of `isWalletAdapterCompatibleStandardWallet`. */
  predicate IsCompatible(w: StandardWallet)
  {
    w.compatible
  }

  /**
   * `new StandardWalletAdapter({ wallet })`: a new wrapper object, numbered
   * `n`, that reports Installed. Its initial connection status and public
   * key are the wrapper class's own business; the model fills in a
   * disconnected wrapper and states nothing about those two fields.
   */
  function WrapWallet(w: StandardWallet, n: nat): Adapter
  {
    Adapter(WrapperId(n), w.name, Installed, false, None, Some(w), w.features)
  }

  /**
   * `wrapWalletsWithAdapters` (lines 77-83): keep the compatible wallets, then
   * wrap each in a new adapter, the i-th numbered `next + i`.
   */
  function WrapWalletsWithAdapters(wallets: seq<StandardWallet>, next: nat): seq<Adapter>
  {
    var compatible := Filter(wallets, IsCompatible);
    seq(|compatible|, i requires 0 <= i < |compatible| => WrapWallet(compatible[i], next + i))
  }

  /**
   * Each wrapper carries one of the input wallets, a compatible one, under
   * that wallet's name, and reports Installed; every compatible wallet gets
   * a wrapper.
   */
  lemma WrapWalletsShape(wallets: seq<StandardWallet>, next: nat)
    ensures var r := WrapWalletsWithAdapters(wallets, next);
      && (forall i :: 0 <= i < |r| ==>
            && r[i].wallet.Some? && r[i].wallet.value in wallets && IsCompatible(r[i].wallet.value)
            && r[i].name == r[i].wallet.value.name && r[i].readyState == Installed)
      && (forall i :: 0 <= i < |wallets| && IsCompatible(wallets[i]) ==>
            exists j :: 0 <= j < |r| && r[j].wallet == Some(wallets[i]))
  {
    var compatible := Filter(wallets, IsCompatible);
    var r := WrapWalletsWithAdapters(wallets, next);
    forall i | 0 <= i < |r|
      ensures r[i].wallet.Some? && r[i].wallet.value in wallets && IsCompatible(r[i].wallet.value)
      ensures r[i].name == r[i].wallet.value.name && r[i].readyState == Installed
    {
      assert r[i] == WrapWallet(compatible[i], next + i);
      assert compatible[i] in wallets && IsCompatible(compatible[i]);
    }
    forall i | 0 <= i < |wallets| && IsCompatible(wallets[i])
      ensures exists j :: 0 <= j < |r| && r[j].wallet == Some(wallets[i])
    {
      assert wallets[i] in compatible;
      var j :| 0 <= j < |compatible| && compatible[j] == wallets[i];
      assert r[j] == WrapWallet(compatible[j], next + j);
    }
  }

  /**
   * There is exactly one wrapper per compatible wallet, the i-th wrapping
   * the i-th compatible wallet, and the compatible wallets are a
   * subsequence of the input: the wrapped wallets keep the input order.
   */
  lemma WrapWalletsInOrder(wallets: seq<StandardWallet>, next: nat)
    ensures var r := WrapWalletsWithAdapters(wallets, next);
      && |r| == |Filter(wallets, IsCompatible)|
      && (forall i :: 0 <= i < |r| ==> r[i].wallet == Some(Filter(wallets, IsCompatible)[i]))
      && IsSubsequence(Filter(wallets, IsCompatible), wallets)
  {
    var compatible := Filter(wallets, IsCompatible);
    var r := WrapWalletsWithAdapters(wallets, next);
    FilterIsSubsequence(wallets, IsCompatible);
    assert forall i :: 0 <= i < |r| ==> r[i] == WrapWallet(compatible[i], next + i);
  }

  /** Every wrapper made from `next` on is a new object, and they are pairwise distinct. */
  lemma WrappersAreFresh(wallets: seq<StandardWallet>, next: nat)
    ensures var r := WrapWalletsWithAdapters(wallets, next);
      && UniqueIds(r)
      && forall i :: 0 <= i < |r| ==> r[i].id.WrapperId? && next <= r[i].id.n < next + |r|
  {
    var r := WrapWalletsWithAdapters(wallets, next);
    assert forall i :: 0 <= i < |r| ==> r[i].id == WrapperId(next + i);
  }

  /** The predicate of the `unregister` handler: the adapter wraps one of `wallets`. */
  function WrapsOneOf(wallets: seq<StandardWallet>): Adapter -> bool
  {
    (a: Adapter) => a.wallet.Some? && a.wallet.value in wallets
  }

  /**
   * The `unregister` handler as written: it keeps the wrappers whose wallet
   * IS among the unregistered ones, in their order, and drops all others.
   */
  function UnregisterAsWritten(current: seq<Adapter>, wallets: seq<StandardWallet>): (r: seq<Adapter>)
    ensures IsSubsequence(r, current)
    ensures forall i :: 0 <= i < |r| ==> r[i] in current && r[i].wallet.Some? && r[i].wallet.value in wallets
    ensures forall i :: 0 <= i < |current| && current[i].wallet.Some? && current[i].wallet.value in wallets ==> current[i] in r
  {
    FilterIsSubsequence(current, WrapsOneOf(wallets));
    Filter(current, WrapsOneOf(wallets))
  }

  /**
   * The consequence of the handler's filter: unregistering one of two
   * registered wallets leaves only the wrapper of the wallet that went away.
   */
  lemma UnregisterKeepsTheUnregistered(w1: StandardWallet, w2: StandardWallet)
    requires w1 != w2 && w1.compatible && w2.compatible
    ensures var list := WrapWalletsWithAdapters([w1, w2], 0);
      UnregisterAsWritten(list, [w1]) == [WrapWallet(w1, 0)]
  {
    var a, b := WrapWallet(w1, 0), WrapWallet(w2, 1);
    assert [w1, w2][1..] == [w2];
    assert WrapWalletsWithAdapters([w2], 1) == [b];
    assert WrapWalletsWithAdapters([w1, w2], 0) == [a, b];
    var p := WrapsOneOf([w1]);
    assert p(a) && !p(b);
    assert [a, b][1..] == [b];
    assert Filter([b], p) == [];
    assert Filter([a, b], p) == [a] + Filter([b], p);
  }

  /** The predicate of the removal effect: the adapter is not in `current`. */
  function AbsentFrom(current: seq<Adapter>): Adapter -> bool
  {
    (a: Adapter) => a !in current
  }

  /**
   * The adapters the removal effect destroys: those of `snapshot` that are
   * no longer in `current`, in snapshot order.
   */
  function Removed(snapshot: seq<Adapter>, current: seq<Adapter>): (r: seq<Adapter>)
    ensures IsSubsequence(r, snapshot)
    ensures forall i :: 0 <= i < |r| ==> r[i] in snapshot && r[i] !in current
    ensures forall i :: 0 <= i < |snapshot| && snapshot[i] !in current ==> snapshot[i] in r
  {
    FilterIsSubsequence(snapshot, AbsentFrom(current));
    Filter(snapshot, AbsentFrom(current))
  }

  /**
   * Because the removal effect compares against the snapshot taken when the
   * hook was set up, an adapter it destroyed is destroyed again when the list
   * changes later, e.g. after a `register` event.
   */
  lemma {:induction false} RemovedAgainAfterRegister(snapshot: seq<Adapter>, current: seq<Adapter>, wallets: seq<StandardWallet>, next: nat)
    requires forall i :: 0 <= i < |snapshot| ==> snapshot[i].id.WrapperId? && snapshot[i].id.n < next
    ensures var later := current + WrapWalletsWithAdapters(wallets, next);
      forall i :: 0 <= i < |Removed(snapshot, current)| ==> Removed(snapshot, current)[i] in Removed(snapshot, later)
  {
    var added := WrapWalletsWithAdapters(wallets, next);
    WrappersAreFresh(wallets, next);
    var later := current + added;
    var gone := Removed(snapshot, current);
    forall i | 0 <= i < |gone| ensures gone[i] in Removed(snapshot, later) {
      var a := gone[i];
      var k :| 0 <= k < |snapshot| && snapshot[k] == a;
      assert forall j :: 0 <= j < |added| ==> added[j].id != a.id;
      assert a !in later;
    }
  }

  /** Some standard adapter already carries `name`. */
  predicate NameTaken(standard: seq<Adapter>, name: string)
  {
    exists i :: 0 <= i < |standard| && standard[i].name == name
  }

  /** The merge filter's verdict: keep a static adapter whose name is not taken. */
  function NameFree(standard: seq<Adapter>): Adapter -> bool
  {
    (a: Adapter) => !NameTaken(standard, a.name)
  }

  /** The list the hook returns (lines 56-74). */
  function MergedList(standard: seq<Adapter>, statics: seq<Adapter>): seq<Adapter>
  {
    standard + Filter(statics, NameFree(standard))
  }

  /**
   * The merged list is every standard adapter in its order, followed by the
   * static adapters, in their order, whose name no standard adapter carries;
   * so it is at most as long as both inputs together.
   */
  lemma MergedListShape(standard: seq<Adapter>, statics: seq<Adapter>)
    ensures var r := MergedList(standard, statics);
      && |standard| <= |r| <= |standard| + |statics|
      && r[..|standard|] == standard
      && IsSubsequence(r[|standard|..], statics)
      && (forall i :: |standard| <= i < |r| ==> r[i] in statics && !NameTaken(standard, r[i].name))
      && (forall i :: 0 <= i < |statics| && !NameTaken(standard, statics[i].name) ==> statics[i] in r[|standard|..])
  {
    var kept := Filter(statics, NameFree(standard));
    FilterIsSubsequence(statics, NameFree(standard));
    assert (standard + kept)[|standard|..] == kept;
  }

  /**
   * A static adapter is in the merged list iff no standard adapter has its
   * name (wrappers and static adapters are never the same object).
   */
  lemma StaticKeptIffNameFree(standard: seq<Adapter>, statics: seq<Adapter>, i: nat)
    requires forall k :: 0 <= k < |standard| ==> standard[k].id.WrapperId?
    requires i < |statics| && statics[i].id.StaticId?
    ensures statics[i] in MergedList(standard, statics) <==> !NameTaken(standard, statics[i].name)
  {
    var r := MergedList(standard, statics);
    var a := statics[i];
    MergedListShape(standard, statics);
    assert r == r[..|standard|] + r[|standard|..];
    assert forall k :: 0 <= k < |standard| ==> standard[k].id != a.id;
  }

  /**
   * The names warned about, in order, while the merge filter walks `statics`
   * with the warnings set initially `seen`: a colliding name is warned the
   * first time it is met, unless it was already in the set.
   */
  function NewWarnings(statics: seq<Adapter>, standard: seq<Adapter>, seen: set<string>): seq<string>
    decreases |statics|
  {
    if statics == [] then []
    else
      var prefix := NewWarnings(statics[..|statics| - 1], standard, seen);
      var name := statics[|statics| - 1].name;
      if NameTaken(standard, name) && name !in seen && name !in prefix then prefix + [name] else prefix
  }

  /** The names warned about in one pass are distinct, shadowed, and were not in the set before. */
  lemma {:induction false} NewWarningsDistinct(statics: seq<Adapter>, standard: seq<Adapter>, seen: set<string>)
    ensures var r := NewWarnings(statics, standard, seen);
      && NoDuplicates(r)
      && forall i :: 0 <= i < |r| ==> r[i] !in seen && NameTaken(standard, r[i])
    decreases |statics|
  {
    if statics != [] {
      var prefix := NewWarnings(statics[..|statics| - 1], standard, seen);
      NewWarningsDistinct(statics[..|statics| - 1], standard, seen);
      var name := statics[|statics| - 1].name;
      if NameTaken(standard, name) && name !in seen && name !in prefix {
        NoDuplicatesConcat(prefix, [name]);
      }
    }
  }

  /** One more static adapter: its name is warned about iff it collides and is new. */
  lemma NewWarningsStep(statics: seq<Adapter>, standard: seq<Adapter>, seen: set<string>, i: nat)
    requires i < |statics|
    ensures var prefix := NewWarnings(statics[..i], standard, seen);
      var name := statics[i].name;
      NewWarnings(statics[..i + 1], standard, seen)
        == if NameTaken(standard, name) && name !in seen && name !in prefix then prefix + [name] else prefix
  {
    assert statics[..i + 1][..i] == statics[..i];
  }

  /** Every colliding name that was not yet in the set gets its warning. */
  lemma {:induction false} NewWarningsComplete(statics: seq<Adapter>, standard: seq<Adapter>, seen: set<string>, i: nat)
    requires i < |statics|
    requires NameTaken(standard, statics[i].name) && statics[i].name !in seen
    ensures statics[i].name in NewWarnings(statics, standard, seen)
    decreases |statics|
  {
    var n := |statics| - 1;
    var prefix := NewWarnings(statics[..n], standard, seen);
    if i < n {
      assert statics[..n][i] == statics[i];
      NewWarningsComplete(statics[..n], standard, seen, i);
    }
  }

  /**
   * The warnings set after part of a merge pass: if it matched the names
   * warned before the pass and matches them again now, a name is in it iff
   * it was before or was warned in this pass, so warning it once more
   * extends the pass's warnings exactly as the next step of NewWarnings does.
   */
  lemma WarnedSoFar(seen: set<string>, warnedBefore: seq<string>, warnings: set<string>, warned: seq<string>,
                    prefix: seq<string>, name: string)
    requires forall n :: n in seen <==> n in warnedBefore
    requires forall n :: n in warnings <==> n in warned
    requires warned == warnedBefore + prefix
    ensures warned + (if name in warnings then [] else [name])
      == warnedBefore + (if name in seen || name in prefix then prefix else prefix + [name])
  {
    assert name in warned <==> name in warnedBefore || name in prefix;
    if name !in warnings {
      assert warnedBefore + prefix + [name] == warnedBefore + (prefix + [name]);
    }
  }

  /**
   * The hook's state: the standard wrappers (a signal), the warnings set, the
   * list as it was when the hook was set up (`prevStandardAdapters`), and the
   * observable effects as logs: the names passed to `console.warn` and the
   * adapters passed to `destroy()`. `nextId` stands for the allocation of new
   * wrapper objects.
   */
  class StandardWalletAdapters {
    var standardAdapters: seq<Adapter>
    const prevStandardAdapters: seq<Adapter>
    var warnings: set<string>
    var nextId: nat
    ghost var warned: seq<string>
    ghost var destroyed: seq<Adapter>

    /** Wrappers are distinct objects, all already allocated; each name is warned about once. */
    ghost predicate Valid()
      reads this
    {
      && (forall i :: 0 <= i < |standardAdapters| ==> standardAdapters[i].id.WrapperId? && standardAdapters[i].id.n < nextId)
      && UniqueIds(standardAdapters)
      && WarningsValid()
    }

    /** The warnings set holds exactly the names warned about, each warned once. */
    ghost predicate WarningsValid()
      reads this
    {
      NoDuplicates(warned) && forall n :: n in warnings <==> n in warned
    }

    /** Set-up: wrap the wallets already registered and take the snapshot. */
    constructor (registered: seq<StandardWallet>)
      ensures Valid()
      ensures standardAdapters == WrapWalletsWithAdapters(registered, 0)
      ensures prevStandardAdapters == standardAdapters
      ensures warnings == {} && warned == [] && destroyed == []
    {
      var initial := WrapWalletsWithAdapters(registered, 0);
      WrappersAreFresh(registered, 0);
      standardAdapters := initial;
      prevStandardAdapters := initial;
      nextId := |initial|;
      warnings := {};
      warned := [];
      destroyed := [];
    }

    /** The `register` event: the wrappers of the new wallets are appended in event order. */
    method Register(wallets: seq<StandardWallet>)
      requires Valid()
      modifies this`standardAdapters, this`nextId
      ensures Valid()
      ensures standardAdapters == old(standardAdapters) + WrapWalletsWithAdapters(wallets, old(nextId))
      ensures nextId >= old(nextId)
    {
      var added := WrapWalletsWithAdapters(wallets, nextId);
      WrappersAreFresh(wallets, nextId);
      var list := standardAdapters + added;
      forall i, j | 0 <= i < j < |list| ensures list[i].id != list[j].id {
        if j < |standardAdapters| {
          assert list[i] == standardAdapters[i] && list[j] == standardAdapters[j];
        } else if i < |standardAdapters| {
          assert list[i].id.n < nextId <= list[j].id.n;
        } else {
          assert list[i] == added[i - |standardAdapters|] && list[j] == added[j - |standardAdapters|];
        }
      }
      standardAdapters := list;
      nextId := nextId + |added|;
    }

    /** The `unregister` event, as written (see UnregisterAsWritten). */
    method Unregister(wallets: seq<StandardWallet>)
      requires Valid()
      modifies this`standardAdapters
      ensures Valid()
      ensures standardAdapters == UnregisterAsWritten(old(standardAdapters), wallets)
    {
      FilterUniqueIds(standardAdapters, WrapsOneOf(wallets));
      var kept := UnregisterAsWritten(standardAdapters, wallets);
      forall i | 0 <= i < |kept| ensures kept[i].id.WrapperId? && kept[i].id.n < nextId {
        var k :| 0 <= k < |standardAdapters| && standardAdapters[k] == kept[i];
      }
      standardAdapters := kept;
    }

    /**
     * The removal effect, run after each change of the list: destroy every
     * adapter of the set-up snapshot that is not in the current list.
     */
    method DestroyRemoved()
      modifies this`destroyed
      ensures destroyed == old(destroyed) + Removed(prevStandardAdapters, standardAdapters)
    {
      var removed := Removed(prevStandardAdapters, standardAdapters);
      var i := 0;
      while i < |removed|
        invariant 0 <= i <= |removed|
        invariant destroyed == old(destroyed) + removed[..i]
      {
        destroyed := destroyed + [removed[i]];
        i := i + 1;
      }
    }

    /** Teardown: destroy every wrapper of the current list. */
    method Teardown()
      modifies this`destroyed
      ensures destroyed == old(destroyed) + standardAdapters
    {
      var i := 0;
      while i < |standardAdapters|
        invariant 0 <= i <= |standardAdapters|
        invariant destroyed == old(destroyed) + standardAdapters[..i]
      {
        destroyed := destroyed + [standardAdapters[i]];
        i := i + 1;
      }
    }

    /** The warning of the merge filter: warn about `name` unless it already was. */
    method WarnOnce(name: string)
      requires WarningsValid()
      modifies this`warnings, this`warned
      ensures WarningsValid()
      ensures warnings == old(warnings) + {name}
      ensures warned == old(warned) + if name in old(warnings) then [] else [name]
    {
      if name !in warnings {
        NoDuplicatesConcat(warned, [name]);
        warnings := warnings + {name};
        warned := warned + [name];
      }
    }

    /**
     * The merge filter's callback on the i-th static adapter (lines 59-72):
     * keep it when its name is free, otherwise warn about the name unless it
     * is in the warnings set. Stated as one step of the pass that began with
     * the set `seen` and the warned names `warnedBefore`.
     */
    method VisitStatic(adapters: seq<Adapter>, i: nat, kept: seq<Adapter>,
                       ghost seen: set<string>, ghost warnedBefore: seq<string>) returns (keptNext: seq<Adapter>)
      requires i < |adapters|
      requires WarningsValid()
      requires forall n :: n in seen <==> n in warnedBefore
      requires kept == Filter(adapters[..i], NameFree(standardAdapters))
      requires warned == warnedBefore + NewWarnings(adapters[..i], standardAdapters, seen)
      modifies this`warnings, this`warned
      ensures WarningsValid()
      ensures keptNext == Filter(adapters[..i + 1], NameFree(standardAdapters))
      ensures warned == warnedBefore + NewWarnings(adapters[..i + 1], standardAdapters, seen)
    {
      var a := adapters[i];
      var taken := NameTaken(standardAdapters, a.name);
      ghost var prefix := NewWarnings(adapters[..i], standardAdapters, seen);
      NewWarningsStep(adapters, standardAdapters, seen, i);
      assert NameFree(standardAdapters)(a) == !taken;
      FilterStep(adapters, NameFree(standardAdapters), i);
      if taken {
        WarnedSoFar(seen, warnedBefore, warnings, warned, prefix, a.name);
        WarnOnce(a.name);
        assert kept + [] == kept;
        keptNext := kept;
      } else {
        keptNext := kept + [a];
      }
    }

    /**
     * The merge filter (lines 58-73): walk the static adapters in order,
     * keeping those whose name no standard adapter carries and warning once
     * about each shadowed name not yet in the warnings set.
     */
    method FilterShadowed(adapters: seq<Adapter>) returns (kept: seq<Adapter>)
      requires WarningsValid()
      modifies this`warnings, this`warned
      ensures WarningsValid()
      ensures kept == Filter(adapters, NameFree(standardAdapters))
      ensures warned == old(warned) + NewWarnings(adapters, standardAdapters, old(warnings))
    {
      kept := [];
      var i := 0;
      while i < |adapters|
        invariant 0 <= i <= |adapters|
        invariant WarningsValid()
        invariant kept == Filter(adapters[..i], NameFree(standardAdapters))
        invariant warned == old(warned) + NewWarnings(adapters[..i], standardAdapters, old(warnings))
      {
        kept := VisitStatic(adapters, i, kept, old(warnings), old(warned));
        i := i + 1;
      }
      assert adapters[..|adapters|] == adapters;
    }

    /**
     * The returned list (lines 56-74): the standard adapters followed by the
     * static ones whose names they do not shadow.
     */
    method Merge(adapters: seq<Adapter>) returns (r: seq<Adapter>)
      requires Valid()
      modifies this`warnings, this`warned
      ensures Valid()
      ensures r == MergedList(standardAdapters, adapters)
      ensures warned == old(warned) + NewWarnings(adapters, standardAdapters, old(warnings))
    {
      var kept := FilterShadowed(adapters);
      r := standardAdapters + kept;
    }
  }
}
