/** Small clients of the filter that call its hooks in the order a dual-tree
    traversal would, and what the hooks' contracts let one conclude. */
module Scenarios {
  import opened Wrappers
  import opened OLock

  /** A node visit at any depth: beforeNode, and when it succeeds, afterNode.
      On success and on failure alike the mode stack comes back as it was. */
  method VisitNode(filter: OLockMergeDualFilter, oldNode: Node, newNode: Node) returns (failure: Option<MergeConflict>)
    requires filter.isMerging != []
    requires BaselineReadable(filter.PeekIsNotFalse(), oldNode.contents, newNode.contents)
    modifies filter, oldNode, newNode
    ensures filter.isMerging == old(filter.isMerging)
    ensures filter.path == old(filter.path)
    ensures failure.Some? <==> NodeOutcome(old(filter.PeekIsNotFalse()), old(oldNode.contents), old(newNode.contents)).Conflict?
  {
    failure := filter.BeforeNode(oldNode, newNode);
    if failure == None {
      filter.AfterNode(oldNode, newNode);
    }
  }

  /** A list element visit pushes and pops exactly one path segment. */
  method VisitListElement(filter: OLockMergeDualFilter, index1: Int32, index2: Int32)
    modifies filter
    ensures filter.path == old(filter.path) && filter.isMerging == old(filter.isMerging)
  {
    filter.BeforeListElement(index1, index2);
    filter.AfterListElement(index1, index2);
  }

  /** An outer lock-protected node the client did not edit, holding an inner
      lock-protected node the client did edit while the backend left it alone.
      The merge succeeds: the outer node persisted (the client's root slot)
      holds the backend's outer content and the inner node it refers to holds
      the client's inner content. */
  method NestedLocks(outerBaseline: Value, outerBackend: Value, innerBaseline: Value, innerEdited: Value)
    returns (merged: map<string, Value>, mergedInner: map<string, Value>, failure: Option<MergeConflict>)
    requires innerBaseline != innerEdited
    ensures failure == None
    ensures OLockHashKey in merged && merged[OLockHashKey] == outerBackend
    ensures "setting" in merged && merged["setting"] == Scalar("backend")
    ensures "inner" in merged && merged["inner"].Child? && merged["inner"].node.contents == mergedInner
    ensures mergedInner == map[OldOLockHashKey := innerBaseline, OLockHashKey := innerEdited, "value" := Scalar("client")]
  {
    var backendInner := new Node(map[OLockHashKey := innerBaseline, "value" := Scalar("backend")]);
    var clientInner := new Node(map[OldOLockHashKey := innerBaseline, OLockHashKey := innerEdited, "value" := Scalar("client")]);
    var backendRoot := new Node(map[OLockHashKey := outerBackend, "setting" := Scalar("backend"), "inner" := Child(backendInner)]);
    var clientRoot := new Node(map[OldOLockHashKey := outerBaseline, OLockHashKey := outerBaseline,
                                   "setting" := Scalar("client"), "inner" := Child(clientInner)]);
    var filter := new OLockMergeDualFilter();

    // The client left the outer node alone: its content is swapped out for the backend's.
    failure := filter.BeforeNode(backendRoot, clientRoot);
    assert failure == None && filter.isMerging == [false, true];
    filter.BeforeNodeProperty("inner");
    // The traversal takes the children from the two slots as they are now.
    var oldChild := backendRoot.contents["inner"].node;
    var newChild := clientRoot.contents["inner"].node;
    assert oldChild == clientInner && newChild == backendInner;
    // The client edited the inner node and the backend did not: swap back.
    failure := filter.BeforeNode(oldChild, newChild);
    assert failure == None && filter.isMerging == [false, true, false];
    filter.AfterNode(oldChild, newChild);
    filter.AfterNodeProperty("inner");
    filter.AfterNode(backendRoot, clientRoot);
    assert filter.isMerging == [false] && filter.path == [];

    merged := clientRoot.contents;
    mergedInner := backendInner.contents;
  }

  /** Baseline, client hash and backend hash pairwise distinct under property
      "device": beforeNode reports the conflict with that path and the two
      diverging hashes, pushes no mode and leaves both nodes alone. */
  method TrueConflict(baseline: Value, clientNow: Value, backendNow: Value)
    returns (failure: Option<MergeConflict>, clientAfter: map<string, Value>, depth: nat)
    requires baseline != clientNow && baseline != backendNow
    ensures failure == Some(MergeConflict(["device"], baseline, Some(backendNow)))
    ensures clientAfter == map[OldOLockHashKey := baseline, OLockHashKey := clientNow]
    ensures depth == 1
  {
    var backend := new Node(map[OLockHashKey := backendNow]);
    var client := new Node(map[OldOLockHashKey := baseline, OLockHashKey := clientNow]);
    var filter := new OLockMergeDualFilter();
    filter.BeforeNodeProperty("device");
    assert filter.path == ["device"];
    assert !ClientUnedited(client.contents) && !BackendUnchanged(client.contents, backend.contents);
    failure := filter.BeforeNode(backend, client);
    clientAfter := client.contents;
    depth := |filter.isMerging|;
  }
}
