/** The optimistic-lock merge filter of dcm4che's configuration core.

    A dual-tree traversal walks two configuration trees in step and calls the
    filter's hooks. `oldNode` is the backend's copy of a node, `newNode` the
    client's copy, which is the one persisted afterwards. At every lock-protected
    node (one whose `newNode` carries the current-hash key) the filter compares
    the client's baseline hash with the two current hashes and either keeps both
    nodes, swaps their whole contents, or reports a merge conflict. */
module OLock {
  import opened Wrappers
  import Decimal

  /** Keys under which a lock-protected node keeps its hashes. The source takes
      them from constants defined outside this file; only their being two
      different keys matters here. */
  const OLockHashKey: string := "#hash"
  const OldOLockHashKey: string := "#old_hash"

  /** A value stored in a configuration node: a scalar (hashes are scalars,
      compared only for equality), a nested node, or a list of values. */
  datatype Value = Scalar(text: string) | Child(node: Node) | Elements(items: seq<Value>)

  /** Map.get: the value under `key`, or None where Java answers null. */
  function Lookup(contents: map<string, Value>, key: string): Option<Value> {
    if key in contents then Some(contents[key]) else None
  }

  /** A list index as a Java int. */
  newtype Int32 = x: int | -0x8000_0000 <= x < 0x8000_0000

  /** A configuration node: a mutable map from keys to values. */
  class Node {
    var contents: map<string, Value>

    constructor (contents: map<string, Value>)
      ensures this.contents == contents
    {
      this.contents := contents;
    }
  }

  /** Exchanges the whole contents of two nodes, hash keys included, the way
      the source does it: copy the first, clear it and fill it from the second,
      clear the second and fill it from the copy. When both arguments are the
      same node its contents come out as they went in. */
  method Swap(oldNode: Node, newNode: Node)
    modifies oldNode, newNode
    ensures oldNode.contents == old(newNode.contents)
    ensures newNode.contents == old(oldNode.contents)
  {
    var tmpNode := map[] + oldNode.contents;
    oldNode.contents := map[];
    oldNode.contents := oldNode.contents + newNode.contents;
    newNode.contents := map[];
    newNode.contents := newNode.contents + tmpNode;
  }

  /** Calling Swap twice restores both nodes. */
  method SwapTwice(a: Node, b: Node)
    modifies a, b
    ensures a.contents == old(a.contents) && b.contents == old(b.contents)
  {
    Swap(a, b);
    Swap(a, b);
  }

  // ---------------------------------------------------------------------------
  // The decision taken on entering a node

  /** What entering a node does: push a mode (and perhaps swap the two nodes),
      or fail with the baseline hash and the hash it was last compared with. */
  datatype Outcome =
    | Proceed(merging: bool, swapped: bool)
    | Conflict(baseline: Value, found: Option<Value>)

  /** A node takes part in optimistic locking when it carries a current hash. */
  predicate IsLockProtected(contents: map<string, Value>) {
    OLockHashKey in contents
  }

  /** In merging mode the backend's content sits in `newNode` and the client's
      in `oldNode`; in scanning mode it is the other way round. */
  function ClientSide(merging: bool, oldContents: map<string, Value>, newContents: map<string, Value>): map<string, Value> {
    if merging then oldContents else newContents
  }

  function BackendSide(merging: bool, oldContents: map<string, Value>, newContents: map<string, Value>): map<string, Value> {
    if merging then newContents else oldContents
  }

  /** The client made no edit below this node: its current hash is its baseline. */
  predicate ClientUnedited(client: map<string, Value>)
    requires OldOLockHashKey in client
  {
    Lookup(client, OLockHashKey) == Some(client[OldOLockHashKey])
  }

  /** The backend did not change this node since the client read it. */
  predicate BackendUnchanged(client: map<string, Value>, backend: map<string, Value>)
    requires OldOLockHashKey in client
  {
    Lookup(backend, OLockHashKey) == Some(client[OldOLockHashKey])
  }

  /** The source dereferences the baseline hash of the side it treats as the
      client's whenever the node is lock-protected; a missing one is a
      NullPointerException there, so the model asks callers to supply it. */
  predicate BaselineReadable(merging: bool, oldContents: map<string, Value>, newContents: map<string, Value>) {
    IsLockProtected(newContents) ==> OldOLockHashKey in ClientSide(merging, oldContents, newContents)
  }

  /** scanCurrentNode: the client's content is in `newNode`. Adopting the
      backend's content means swapping it into `newNode`. */
  function ScanOutcome(oldContents: map<string, Value>, newContents: map<string, Value>): (r: Outcome)
    requires OldOLockHashKey in newContents
    ensures r.Proceed? ==> r.swapped == r.merging
    ensures r.Proceed? && r.merging <==> ClientUnedited(newContents)
    ensures r.Conflict? <==> !ClientUnedited(newContents) && !BackendUnchanged(newContents, oldContents)
    ensures r.Conflict? ==> r.baseline == newContents[OldOLockHashKey]
  {
    var newNodeHash := newContents[OldOLockHashKey];
    if Some(newNodeHash) == Lookup(newContents, OLockHashKey) then
      Proceed(true, true)
    else
      var oldNodeHash := Lookup(oldContents, OLockHashKey);
      if Some(newNodeHash) == oldNodeHash then
        Proceed(false, false)
      else
        Conflict(newNodeHash, oldNodeHash)
  }

  /** mergeCurrentNode: an ancestor swapped, so the client's content is in
      `oldNode`. It is the scanning comparison with the two nodes' roles
      exchanged: the same mode is pushed and the same conflict raised, but a
      swap happens exactly where scanning would not swap. */
  function MergeOutcome(oldContents: map<string, Value>, newContents: map<string, Value>): (r: Outcome)
    requires OldOLockHashKey in oldContents
    ensures r.Proceed? == ScanOutcome(newContents, oldContents).Proceed?
    ensures r.Proceed? ==> r.merging == ScanOutcome(newContents, oldContents).merging
    ensures r.Proceed? ==> r.swapped != ScanOutcome(newContents, oldContents).swapped
    ensures r.Conflict? ==> r == ScanOutcome(newContents, oldContents)
  {
    var actualNewNode := oldContents;
    var actualOldNode := newContents;
    var newNodeHash := actualNewNode[OldOLockHashKey];
    if Some(newNodeHash) == Lookup(actualNewNode, OLockHashKey) then
      Proceed(true, false)
    else
      var oldNodeHash := Lookup(actualOldNode, OLockHashKey);
      if Some(newNodeHash) == oldNodeHash then
        Proceed(false, true)
      else
        Conflict(newNodeHash, oldNodeHash)
  }

  /** Where the two contents end up after an outcome that proceeds: the pair
      (oldNode's contents, newNode's contents). */
  function Placement(swapped: bool, oldContents: map<string, Value>, newContents: map<string, Value>): (map<string, Value>, map<string, Value>) {
    if swapped then (newContents, oldContents) else (oldContents, newContents)
  }

  /** beforeNode's decision, given the mode on top of the stack. In terms of
      the client's and the backend's side of the node:
      - a node without a current hash inherits the mode and is left alone;
      - otherwise the backend's content becomes authoritative (mode true)
        exactly when the client made no edit, a conflict arises exactly when
        the client edited and the backend changed too, and the client's
        baseline and the backend's hash are what the conflict reports;
      - a swap happens exactly when the mode changes, and afterwards `newNode`
        holds the backend's content in merging mode and the client's content
        in scanning mode. */
  function NodeOutcome(merging: bool, oldContents: map<string, Value>, newContents: map<string, Value>): (r: Outcome)
    requires BaselineReadable(merging, oldContents, newContents)
    ensures !IsLockProtected(newContents) ==> r == Proceed(merging, false)
    ensures r.Proceed? ==> (r.swapped <==> r.merging != merging)
    ensures IsLockProtected(newContents) ==>
      var client := ClientSide(merging, oldContents, newContents);
      var backend := BackendSide(merging, oldContents, newContents);
      && (r.Proceed? && r.merging <==> ClientUnedited(client))
      && (r.Conflict? <==> !ClientUnedited(client) && !BackendUnchanged(client, backend))
      && (r.Conflict? ==> r.baseline == client[OldOLockHashKey] && r.found == Lookup(backend, OLockHashKey))
      && (r.Proceed? ==> Placement(r.swapped, oldContents, newContents) ==
                         (if r.merging then (client, backend) else (backend, client)))
  {
    if !IsLockProtected(newContents) then
      Proceed(merging, false)
    else if !merging then
      ScanOutcome(oldContents, newContents)
    else
      MergeOutcome(oldContents, newContents)
  }

  // ---------------------------------------------------------------------------
  // Diagnostics

  /** The failure a hook reports: the path of the node (outermost segment
      first), the client's baseline hash and the hash it was compared with
      last (None where the source compares with null). */
  datatype MergeConflict = MergeConflict(at: seq<string>, newHash: Value, oldHash: Option<Value>)

  /** The path segment beforeListElement pushes: `index1` rendered in
      decimal when the mode on top of the stack is merging, `index2`
      otherwise; it reads back as that index. */
  function ListElementSegment(merging: bool, index1: Int32, index2: Int32): (s: string)
    ensures Decimal.ParseInt(s) == Some(if merging then index1 as int else index2 as int)
  {
    if merging then Decimal.IntToString(index1 as int) else Decimal.IntToString(index2 as int)
  }

  // ---------------------------------------------------------------------------
  // The filter

  class OLockMergeDualFilter {
    /** Path segments, outermost first (the top of the source's deque is last). */
    var path: seq<string>
    /** One mode per depth, the root's first and the current one last:
        false is scanning, true is merging. */
    var isMerging: seq<bool>

    constructor ()
      ensures path == [] && isMerging == [false]
    {
      path := [];
      isMerging := [false];
    }

    /** isMerging.peek() on a non-empty stack. */
    function Top(): bool
      reads this
      requires isMerging != []
    {
      isMerging[|isMerging| - 1]
    }

    /** Boolean.TRUE.equals(isMerging.peek()): false on an empty stack. */
    function PeekIsTrue(): bool
      reads this
    {
      isMerging != [] && Top()
    }

    /** !Boolean.FALSE.equals(isMerging.peek()), the test beforeNode makes
        on a lock-protected node: an empty stack reads as merging. */
    function PeekIsNotFalse(): bool
      reads this
    {
      isMerging == [] || Top()
    }

    /** The effect of a node hook with outcome `r`: the path is kept; an
        outcome that proceeds pushes its mode and places the two contents as
        Placement says, a conflict is reported with the current path and
        leaves the stack and both nodes as they were. */
    twostate predicate Realizes(r: Outcome, oldNode: Node, newNode: Node, new failure: Option<MergeConflict>)
      reads this, oldNode, newNode
    {
      && path == old(path)
      && match r
         case Proceed(mode, swapped) =>
           && failure == None
           && isMerging == old(isMerging) + [mode]
           && (oldNode.contents, newNode.contents) == Placement(swapped, old(oldNode.contents), old(newNode.contents))
         case Conflict(baseline, found) =>
           && failure == Some(MergeConflict(path, baseline, found))
           && isMerging == old(isMerging)
           && oldNode.contents == old(oldNode.contents)
           && newNode.contents == old(newNode.contents)
    }

    method BeforeNode(oldNode: Node, newNode: Node) returns (failure: Option<MergeConflict>)
      requires isMerging != [] || IsLockProtected(newNode.contents)
      requires BaselineReadable(PeekIsNotFalse(), oldNode.contents, newNode.contents)
      modifies this, oldNode, newNode
      ensures Realizes(NodeOutcome(old(PeekIsNotFalse()), old(oldNode.contents), old(newNode.contents)), oldNode, newNode, failure)
    {
      if OLockHashKey !in newNode.contents {
        isMerging := isMerging + [Top()];
        return None;
      }
      if !PeekIsNotFalse() {
        failure := ScanCurrentNode(oldNode, newNode);
      } else {
        failure := MergeCurrentNode(oldNode, newNode);
      }
    }

    method AfterNode(node1: Node, node2: Node)
      requires isMerging != []
      modifies this
      ensures isMerging == old(isMerging)[..|old(isMerging)| - 1]
      ensures path == old(path)
    {
      isMerging := isMerging[..|isMerging| - 1];
    }

    method BeforeNodeProperty(key: string)
      modifies this
      ensures path == old(path) + [key]
      ensures isMerging == old(isMerging)
    {
      path := path + [key];
    }

    method AfterNodeProperty(key: string)
      requires path != []
      modifies this
      ensures path == old(path)[..|old(path)| - 1]
      ensures isMerging == old(isMerging)
    {
      path := path[..|path| - 1];
    }

    method BeforeListElement(index1: Int32, index2: Int32)
      modifies this
      ensures path == old(path) + [ListElementSegment(old(PeekIsTrue()), index1, index2)]
      ensures isMerging == old(isMerging)
    {
      if PeekIsTrue() {
        path := path + [Decimal.IntToString(index1 as int)];
      } else {
        path := path + [Decimal.IntToString(index2 as int)];
      }
    }

    method AfterListElement(index1: Int32, index2: Int32)
      requires path != []
      modifies this
      ensures path == old(path)[..|old(path)| - 1]
      ensures isMerging == old(isMerging)
    {
      path := path[..|path| - 1];
    }

    method ScanCurrentNode(oldNode: Node, newNode: Node) returns (failure: Option<MergeConflict>)
      requires OldOLockHashKey in newNode.contents
      modifies this, oldNode, newNode
      ensures Realizes(ScanOutcome(old(oldNode.contents), old(newNode.contents)), oldNode, newNode, failure)
    {
      var newNodeHash := newNode.contents[OldOLockHashKey];
      if Some(newNodeHash) == Lookup(newNode.contents, OLockHashKey) {
        isMerging := isMerging + [true];
        Swap(oldNode, newNode);
        failure := None;
      } else {
        var oldNodeHash := Lookup(oldNode.contents, OLockHashKey);
        if Some(newNodeHash) == oldNodeHash {
          isMerging := isMerging + [false];
          failure := None;
        } else {
          failure := Some(MergeConflict(path, newNodeHash, oldNodeHash));
        }
      }
    }

    method MergeCurrentNode(oldNode: Node, newNode: Node) returns (failure: Option<MergeConflict>)
      requires OldOLockHashKey in oldNode.contents
      modifies this, oldNode, newNode
      ensures Realizes(MergeOutcome(old(oldNode.contents), old(newNode.contents)), oldNode, newNode, failure)
    {
      var actualNewNode := oldNode;
      var actualOldNode := newNode;
      var newNodeHash := actualNewNode.contents[OldOLockHashKey];
      if Some(newNodeHash) == Lookup(actualNewNode.contents, OLockHashKey) {
        isMerging := isMerging + [true];
        failure := None;
      } else {
        var oldNodeHash := Lookup(actualOldNode.contents, OLockHashKey);
        if Some(newNodeHash) == oldNodeHash {
          isMerging := isMerging + [false];
          Swap(actualOldNode, actualNewNode);
          failure := None;
        } else {
          failure := Some(MergeConflict(path, newNodeHash, oldNodeHash));
        }
      }
    }

    /** getUserReadableNodeDescription. `render` stands for the path renderer
        the source calls, which is not part of this model; it receives the
        segments outermost first. */
    function UserReadableNodeDescription(render: seq<string> -> string): (d: string)
      reads this
      ensures d == "node " <==> path == []
      ensures path != [] ==> |d| >= 8 && d[0] == '\'' && d[1..|d| - 7] == render(path) && d[|d| - 7..] == "' node "
    {
      if path == [] then
        "node "
      else
        var d := "'" + render(path) + "' node ";
        assert d[0] != "node "[0];
        d
    }
  }
}
