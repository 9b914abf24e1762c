/**
  * The global key handler: two effects driven by the state of the delete key
  * and of the multi-selection key. Key listening itself is not modelled; each
  * render receives the two resulting booleans. The call into `deleteElements`
  * is recorded, not executed: what it removes is decided elsewhere.
  */
module GlobalKeyHandler {
  import opened Wrappers
  import opened Sequences
  import opened Edges
  import opened Store

  /** The `selected` predicate: truthiness of an optional boolean. */
  predicate NodeSelected(n: Node) {
    n.selected == Some(true)
  }

  predicate EdgeSelected<T>(e: Edge<T>) {
    e.selected == Some(true)
  }

  /** The arguments of one `deleteElements` call. */
  datatype DeleteRequest<T> = DeleteRequest(nodes: seq<Node>, edges: seq<Edge<T>>, onBeforeDelete: Option<HandlerId>)

  /** What the delete key asks to delete: the selected nodes and edges, in store order, with the store's pre-delete hook. */
  function SelectionToDelete<T>(nodes: seq<Node>, edges: seq<Edge<T>>, onBeforeDelete: Option<HandlerId>): (r: DeleteRequest<T>)
    ensures forall i :: 0 <= i < |r.nodes| ==> r.nodes[i] in nodes && NodeSelected(r.nodes[i])
    ensures forall i :: 0 <= i < |nodes| && NodeSelected(nodes[i]) ==> nodes[i] in r.nodes
    ensures forall i :: 0 <= i < |r.edges| ==> r.edges[i] in edges && EdgeSelected(r.edges[i])
    ensures forall i :: 0 <= i < |edges| && EdgeSelected(edges[i]) ==> edges[i] in r.edges
    ensures r.onBeforeDelete == onBeforeDelete
  {
    DeleteRequest(Filter(nodes, NodeSelected), Filter(edges, EdgeSelected), onBeforeDelete)
  }

  /** Each selected item is passed as often as it occurs; an unselected one never is. */
  lemma SelectionToDeleteCounts<T>(nodes: seq<Node>, edges: seq<Edge<T>>, h: Option<HandlerId>, n: Node, e: Edge<T>)
    ensures multiset(SelectionToDelete(nodes, edges, h).nodes)[n] == if NodeSelected(n) then multiset(nodes)[n] else 0
    ensures multiset(SelectionToDelete(nodes, edges, h).edges)[e] == if EdgeSelected(e) then multiset(edges)[e] else 0
  {
    FilterCount(nodes, NodeSelected, n);
    FilterCount(edges, EdgeSelected, e);
  }

  /** Store order is kept: the selection of a concatenation is the concatenation of the selections. */
  lemma SelectionToDeleteKeepsOrder<T>(n1: seq<Node>, n2: seq<Node>, e1: seq<Edge<T>>, e2: seq<Edge<T>>, h: Option<HandlerId>)
    ensures SelectionToDelete(n1 + n2, e1 + e2, h).nodes
         == SelectionToDelete(n1, e1, h).nodes + SelectionToDelete(n2, e2, h).nodes
    ensures SelectionToDelete(n1 + n2, e1 + e2, h).edges
         == SelectionToDelete(n1, e1, h).edges + SelectionToDelete(n2, e2, h).edges
  {
    FilterAppend(n1, n2, NodeSelected);
    FilterAppend(e1, e2, EdgeSelected);
  }

  /**
    * Whether the delete effect's branch runs in a render: the effect runs when
    * its dependency differs from the last render's (`None` before the first
    * render), and its branch only when the key is pressed.
    */
  function DeleteBranchRuns(previous: Option<bool>, deleteKeyPressed: bool): (runs: bool)
    ensures runs <==> deleteKeyPressed && previous != Some(true)
  {
    previous != Some(deleteKeyPressed) && deleteKeyPressed
  }

  /** The number of deletions over a run of renders, starting from the dependency `previous`. */
  function DeletionsOver(previous: Option<bool>, presses: seq<bool>): nat
    decreases |presses|
  {
    if presses == [] then 0
    else (if DeleteBranchRuns(previous, presses[0]) then 1 else 0) + DeletionsOver(Some(presses[0]), presses[1..])
  }

  /** Holding the delete key down across renders deletes nothing more. */
  lemma {:induction false} HeldDeleteKeyDeletesNothing(presses: seq<bool>)
    requires forall i :: 0 <= i < |presses| ==> presses[i]
    ensures DeletionsOver(Some(true), presses) == 0
  {
    if presses != [] {
      HeldDeleteKeyDeletesNothing(presses[1..]);
    }
  }

  /** Each press after a release deletes once: pressing k times, releasing in between, deletes k times. */
  lemma {:induction false} DeletionsPerPress(k: nat)
    ensures DeletionsOver(Some(false), PressReleaseCycles(k)) == k
  {
    if k > 0 {
      assert PressReleaseCycles(k)[2..] == PressReleaseCycles(k - 1);
      DeletionsPerPress(k - 1);
    }
  }

  /** The delete effect's dependency after a run of renders starting from `previous`. */
  function LastDep(previous: Option<bool>, presses: seq<bool>): (dep: Option<bool>)
    ensures presses != [] ==> dep == Some(presses[|presses| - 1])
  {
    if presses == [] then previous else Some(presses[|presses| - 1])
  }

  /** Counting deletions one more render at the end. */
  lemma {:induction false} DeletionsOverSnoc(previous: Option<bool>, presses: seq<bool>, next: bool)
    ensures DeletionsOver(previous, presses + [next])
         == DeletionsOver(previous, presses) + (if DeleteBranchRuns(LastDep(previous, presses), next) then 1 else 0)
    decreases |presses|
  {
    if presses == [] {
      assert presses + [next] == [next];
    } else {
      assert (presses + [next])[0] == presses[0];
      assert (presses + [next])[1..] == presses[1..] + [next];
      DeletionsOverSnoc(Some(presses[0]), presses[1..], next);
    }
  }

  /** `k` press-then-release pairs. */
  function PressReleaseCycles(k: nat): (s: seq<bool>)
    ensures |s| == 2 * k
  {
    if k == 0 then [] else [true, false] + PressReleaseCycles(k - 1)
  }

  /** The hook instance: the store it works on, its effects' last dependencies, and the calls it has made. */
  class KeyHandlerHook<T> {
    const store: FlowStore<T>
    var deleteKeyDep: Option<bool>
    var multiSelectionKeyDep: Option<bool>
    var deleteCalls: seq<DeleteRequest<T>>

    constructor (store: FlowStore<T>)
      ensures this.store == store
      ensures deleteKeyDep == None && multiSelectionKeyDep == None && deleteCalls == []
    {
      this.store := store;
      deleteKeyDep := None;
      multiSelectionKeyDep := None;
      deleteCalls := [];
    }

    /** The multi-selection flag mirrors the key state the multi-selection effect last saw. */
    ghost predicate MultiSelectionSynced()
      reads this, store
    {
      multiSelectionKeyDep.Some? ==> store.multiSelectionActive == multiSelectionKeyDep.value
    }

    /** The delete effect's body: on a pressed key, delete the selection and clear the selection box flag. */
    method DeleteKeyEffect(deleteKeyPressed: bool)
      modifies this`deleteCalls, store`nodesSelectionActive
      ensures deleteKeyPressed ==>
        && deleteCalls == old(deleteCalls) + [SelectionToDelete(old(store.nodes), old(store.edges), old(store.onBeforeDelete))]
        && !store.nodesSelectionActive
      ensures !deleteKeyPressed ==>
        deleteCalls == old(deleteCalls) && store.nodesSelectionActive == old(store.nodesSelectionActive)
    {
      if deleteKeyPressed {
        deleteCalls := deleteCalls + [SelectionToDelete(store.nodes, store.edges, store.onBeforeDelete)];
        store.nodesSelectionActive := false;
      }
    }

    /** The multi-selection effect's body: write the key state into the store. */
    method MultiSelectionKeyEffect(multiSelectionKeyPressed: bool)
      modifies store`multiSelectionActive
      ensures store.multiSelectionActive == multiSelectionKeyPressed
    {
      store.multiSelectionActive := multiSelectionKeyPressed;
    }

    /** One render: each effect runs, in declaration order, when its dependency changed. */
    method Render(deleteKeyPressed: bool, multiSelectionKeyPressed: bool)
      modifies this, store`nodesSelectionActive, store`multiSelectionActive
      ensures deleteKeyDep == Some(deleteKeyPressed) && multiSelectionKeyDep == Some(multiSelectionKeyPressed)
      ensures DeleteBranchRuns(old(deleteKeyDep), deleteKeyPressed) ==>
        && deleteCalls == old(deleteCalls) + [SelectionToDelete(old(store.nodes), old(store.edges), old(store.onBeforeDelete))]
        && !store.nodesSelectionActive
      ensures !DeleteBranchRuns(old(deleteKeyDep), deleteKeyPressed) ==>
        deleteCalls == old(deleteCalls) && store.nodesSelectionActive == old(store.nodesSelectionActive)
      ensures store.multiSelectionActive ==
        if old(multiSelectionKeyDep) != Some(multiSelectionKeyPressed) then multiSelectionKeyPressed
        else old(store.multiSelectionActive)
      ensures old(MultiSelectionSynced()) ==> MultiSelectionSynced()
    {
      if deleteKeyDep != Some(deleteKeyPressed) {
        DeleteKeyEffect(deleteKeyPressed);
        deleteKeyDep := Some(deleteKeyPressed);
      }
      if multiSelectionKeyDep != Some(multiSelectionKeyPressed) {
        MultiSelectionKeyEffect(multiSelectionKeyPressed);
        multiSelectionKeyDep := Some(multiSelectionKeyPressed);
      }
    }

    /**
      * Successive renders with the delete key states `presses` while the
      * multi-selection key stays in one state: the calls made are exactly as
      * many as `DeletionsOver` counts, each one the store's selection; the
      * selection box flag is cleared once a deletion has happened, and the
      * multi-selection flag follows the key as in a single render.
      */
    method RenderDeleteKeyStates(presses: seq<bool>, multiSelectionKeyPressed: bool)
      modifies this, store`nodesSelectionActive, store`multiSelectionActive
      ensures |deleteCalls| == |old(deleteCalls)| + DeletionsOver(old(deleteKeyDep), presses)
      ensures deleteCalls[..|old(deleteCalls)|] == old(deleteCalls)
      ensures forall i :: |old(deleteCalls)| <= i < |deleteCalls| ==>
        deleteCalls[i] == SelectionToDelete(old(store.nodes), old(store.edges), old(store.onBeforeDelete))
      ensures deleteKeyDep == LastDep(old(deleteKeyDep), presses)
      ensures presses != [] ==>
        && multiSelectionKeyDep == Some(multiSelectionKeyPressed)
        && store.multiSelectionActive ==
             if old(multiSelectionKeyDep) != Some(multiSelectionKeyPressed) then multiSelectionKeyPressed
             else old(store.multiSelectionActive)
      ensures presses == [] ==>
        multiSelectionKeyDep == old(multiSelectionKeyDep) && store.multiSelectionActive == old(store.multiSelectionActive)
      ensures DeletionsOver(old(deleteKeyDep), presses) > 0 ==> !store.nodesSelectionActive
      ensures DeletionsOver(old(deleteKeyDep), presses) == 0 ==>
        store.nodesSelectionActive == old(store.nodesSelectionActive)
      ensures old(MultiSelectionSynced()) ==> MultiSelectionSynced()
    {
      var i := 0;
      while i < |presses|
        invariant 0 <= i <= |presses|
        invariant deleteKeyDep == LastDep(old(deleteKeyDep), presses[..i])
        invariant |deleteCalls| == |old(deleteCalls)| + DeletionsOver(old(deleteKeyDep), presses[..i])
        invariant deleteCalls[..|old(deleteCalls)|] == old(deleteCalls)
        invariant forall k :: |old(deleteCalls)| <= k < |deleteCalls| ==>
          deleteCalls[k] == SelectionToDelete(store.nodes, store.edges, store.onBeforeDelete)
        invariant i > 0 ==>
          && multiSelectionKeyDep == Some(multiSelectionKeyPressed)
          && store.multiSelectionActive ==
               if old(multiSelectionKeyDep) != Some(multiSelectionKeyPressed) then multiSelectionKeyPressed
               else old(store.multiSelectionActive)
        invariant i == 0 ==>
          multiSelectionKeyDep == old(multiSelectionKeyDep) && store.multiSelectionActive == old(store.multiSelectionActive)
        invariant DeletionsOver(old(deleteKeyDep), presses[..i]) > 0 ==> !store.nodesSelectionActive
        invariant DeletionsOver(old(deleteKeyDep), presses[..i]) == 0 ==>
          store.nodesSelectionActive == old(store.nodesSelectionActive)
        invariant old(MultiSelectionSynced()) ==> MultiSelectionSynced()
      {
        DeletionsOverSnoc(old(deleteKeyDep), presses[..i], presses[i]);
        assert presses[..i + 1] == presses[..i] + [presses[i]];
        Render(presses[i], multiSelectionKeyPressed);
        i := i + 1;
      }
      assert presses[..i] == presses;
    }
  }

  /**
    * Holding the multi-selection key, then pressing and holding delete: one
    * deletion of the selection, and multi-selection stays active throughout.
    */
  method HoldMultiSelectionThenDelete<T>(store: FlowStore<T>) returns (calls: seq<DeleteRequest<T>>)
    modifies store`nodesSelectionActive, store`multiSelectionActive
    ensures calls == [SelectionToDelete(old(store.nodes), old(store.edges), old(store.onBeforeDelete))]
    ensures store.multiSelectionActive && !store.nodesSelectionActive
  {
    var hook := new KeyHandlerHook(store);
    hook.Render(false, false);
    hook.Render(false, true);
    assert store.multiSelectionActive;
    hook.Render(true, true);
    assert store.multiSelectionActive;
    hook.Render(true, true);
    calls := hook.deleteCalls;
  }
}

