# Optimistic-lock merge filter (dcm4che configuration core)

This project models `OLockMergeDualFilter`, the set of hooks that dcm4che's
dual-tree traversal calls while it walks two configuration trees in step.
`oldNode` is the backend's copy of a node and `newNode` is the client's copy.
The client's copy is persisted afterwards. The filter keeps two stacks:

- `path`: the path segments of the current position, used only in diagnostics;
- `isMerging`: one mode per depth. `false` is scanning: the client's content is in `newNode`.
  `true` is merging: the backend's content has been swapped into `newNode`.

A node is lock-protected when `newNode` carries the current-hash key. On entering
such a node, the filter compares the client's baseline hash with the two current
hashes. It then does one of three things:

- keeps both nodes as they are;
- swaps the whole contents of the two nodes;
- reports a merge conflict (the source throws `OLockMergeException`).

Files:

- `wrappers.dfy`: `Option`.
- `decimal.dfy`: `Integer.toString(int)` as `IntToString`. Its inverse `ParseInt` is used to
  show that a list-index path segment reads back as the index it came from.
- `olock.dfy`: the data model and the filter.
  - `Node` is a class whose `contents` map is mutated in place.
  - `Swap` exchanges two nodes' contents.
  - `ScanOutcome`, `MergeOutcome` and `NodeOutcome` are the decision functions that specify the hooks.
  - The class `OLockMergeDualFilter` has the `path` and `isMerging` fields and one method per hook.
- `scenarios.dfy`: small clients that call the hooks in the order a traversal
  would. They cover a balanced node visit, a list-element visit, an unedited
  outer lock holding an edited inner lock, and a true conflict.

Both stacks are sequences with the top at the end. The path therefore reads
outermost segment first, which is the order in which the source hands it to the
path renderer (`descendingIterator`).

The meaning of each decision is stated through the roles of the two nodes,
not through their slots. In scanning mode the client's content is in `newNode`;
in merging mode it is in `oldNode` (`ClientSide`, `BackendSide`). `NodeOutcome`
promises four things:

- the backend's content becomes authoritative (mode `true`) exactly when the client made no edit;
- a conflict arises exactly when the client edited and the backend changed too;
- a swap happens exactly when the mode changes;
- afterwards, `newNode` holds the backend's content in merging mode and the client's content in scanning mode.

Two details of the code that the model reproduces:

- Lock protection is tested on `newNode` (line 91). In merging mode `newNode`
  holds the backend's content (lines 163-165), so there it is the backend's
  copy that decides whether a node is lock-protected.
- The mode stack starts as `[false]` (line 84); each `beforeNode` that does not
  throw pushes one mode and each `afterNode` pops one, so paired hooks never
  empty it. An unpaired `afterNode` can. On an empty stack `beforeNode` still
  works for a lock-protected `newNode`: `Boolean.FALSE.equals(null)` is false
  (line 96), so it runs the merging comparison (`PeekIsNotFalse`). Only the
  unprotected branch throws there (`push(null)`, line 92).

## Model

| member | source | states |
|---|---|---|
| `OLock.Swap` | dcm4che-conf/dcm4che-conf-core/src/main/java/org/dcm4che3/conf/core/olock/OLockMergeDualFilter.java:196-212 | each node ends up with the other's former contents, hash keys included; this also holds when both arguments are the same node |
| `OLock.SwapTwice` | dcm4che-conf/dcm4che-conf-core/src/main/java/org/dcm4che3/conf/core/olock/OLockMergeDualFilter.java:202-212 | swapping twice restores both nodes |
| `OLock.ScanOutcome` | dcm4che-conf/dcm4che-conf-core/src/main/java/org/dcm4che3/conf/core/olock/OLockMergeDualFilter.java:139-159 | scanning mode: push `true` with a swap exactly when the client's baseline equals its current hash; push `false` without a swap when it instead equals the backend's hash; conflict reporting the baseline exactly when it equals neither |
| `OLock.MergeOutcome` | dcm4che-conf/dcm4che-conf-core/src/main/java/org/dcm4che3/conf/core/olock/OLockMergeDualFilter.java:161-185 | merging mode is the scanning comparison with the two nodes' roles exchanged: same success, same pushed mode, same conflict, and a swap exactly where scanning would not swap |
| `OLock.NodeOutcome` | dcm4che-conf/dcm4che-conf-core/src/main/java/org/dcm4che3/conf/core/olock/OLockMergeDualFilter.java:88-103 | an unprotected node re-pushes the current mode and is left alone; at a protected node the backend's side becomes authoritative exactly when the client left it unedited, a conflict arises exactly when both sides changed and reports the client's baseline and the backend's hash, a swap happens exactly when the mode changes, and afterwards `newNode` holds the backend's content in merging mode and the client's in scanning mode |
| `OLock.OLockMergeDualFilter.constructor` | dcm4che-conf/dcm4che-conf-core/src/main/java/org/dcm4che3/conf/core/olock/OLockMergeDualFilter.java:72-85 | a fresh filter has an empty path and the single root mode `false` |
| `OLock.OLockMergeDualFilter.BeforeNode` | dcm4che-conf/dcm4che-conf-core/src/main/java/org/dcm4che3/conf/core/olock/OLockMergeDualFilter.java:87-103 | carries out `NodeOutcome` of the top mode (an empty stack reading as merging) and the two nodes' contents: on success it pushes exactly one mode and places the contents as decided; on conflict it returns the current path and both hashes, and pushes and swaps nothing; the path is never changed |
| `OLock.OLockMergeDualFilter.ScanCurrentNode` | dcm4che-conf/dcm4che-conf-core/src/main/java/org/dcm4che3/conf/core/olock/OLockMergeDualFilter.java:139-159 | carries out `ScanOutcome` on the stack and the two nodes |
| `OLock.OLockMergeDualFilter.MergeCurrentNode` | dcm4che-conf/dcm4che-conf-core/src/main/java/org/dcm4che3/conf/core/olock/OLockMergeDualFilter.java:161-185 | carries out `MergeOutcome` on the stack and the two nodes |
| `OLock.OLockMergeDualFilter.AfterNode` | dcm4che-conf/dcm4che-conf-core/src/main/java/org/dcm4che3/conf/core/olock/OLockMergeDualFilter.java:105-109 | pops exactly one mode and leaves the path alone |
| `OLock.OLockMergeDualFilter.BeforeNodeProperty` | dcm4che-conf/dcm4che-conf-core/src/main/java/org/dcm4che3/conf/core/olock/OLockMergeDualFilter.java:111-115 | pushes the key as a path segment; modes unchanged |
| `OLock.OLockMergeDualFilter.AfterNodeProperty` | dcm4che-conf/dcm4che-conf-core/src/main/java/org/dcm4che3/conf/core/olock/OLockMergeDualFilter.java:117-121 | pops exactly one path segment; modes unchanged |
| `OLock.OLockMergeDualFilter.BeforeListElement` | dcm4che-conf/dcm4che-conf-core/src/main/java/org/dcm4che3/conf/core/olock/OLockMergeDualFilter.java:123-131 | pushes one segment, `ListElementSegment` of the top mode; modes unchanged |
| `OLock.ListElementSegment` | dcm4che-conf/dcm4che-conf-core/src/main/java/org/dcm4che3/conf/core/olock/OLockMergeDualFilter.java:126-130 | the segment reads back as `index1` when the top mode is merging and as `index2` otherwise |
| `OLock.OLockMergeDualFilter.AfterListElement` | dcm4che-conf/dcm4che-conf-core/src/main/java/org/dcm4che3/conf/core/olock/OLockMergeDualFilter.java:133-137 | pops exactly one path segment; modes unchanged |
| `OLock.OLockMergeDualFilter.UserReadableNodeDescription` | dcm4che-conf/dcm4che-conf-core/src/main/java/org/dcm4che3/conf/core/olock/OLockMergeDualFilter.java:187-194 | the text is exactly `"node "` when the path is empty; otherwise it is the rendered path in single quotes followed by `" node "` |
| `Decimal.NatToString` | dcm4che-conf/dcm4che-conf-core/src/main/java/org/dcm4che3/conf/core/olock/OLockMergeDualFilter.java:127-129 | decimal digits that denote the number: exactly `"0"` for zero, otherwise no leading zero |
| `Decimal.IntToString` | dcm4che-conf/dcm4che-conf-core/src/main/java/org/dcm4che3/conf/core/olock/OLockMergeDualFilter.java:127-129 | `Integer.toString`: non-empty; starts with `-` exactly for negatives; `"0"` for zero and no leading zero otherwise; `ParseInt` reads it back as the same integer |
| `Scenarios.VisitNode` | dcm4che-conf/dcm4che-conf-core/src/main/java/org/dcm4che3/conf/core/olock/OLockMergeDualFilter.java:87-109 | a `beforeNode` followed, on success, by `afterNode` leaves the mode stack and the path as they were, on success and on failure; it fails exactly when the decision is a conflict |
| `Scenarios.VisitListElement` | dcm4che-conf/dcm4che-conf-core/src/main/java/org/dcm4che3/conf/core/olock/OLockMergeDualFilter.java:123-137 | a list-element visit leaves the path and the modes as they were |
| `Scenarios.NestedLocks` | dcm4che-conf/dcm4che-conf-core/src/main/java/org/dcm4che3/conf/core/olock/OLockMergeDualFilter.java:139-185 | outer node unedited by the client, inner node edited by the client only: no conflict; the persisted outer node holds the backend's outer content, and the inner node it refers to holds the client's edit |
| `Scenarios.TrueConflict` | dcm4che-conf/dcm4che-conf-core/src/main/java/org/dcm4che3/conf/core/olock/OLockMergeDualFilter.java:147-157 | baseline, client hash and backend hash that differ pairwise: conflict naming the path `["device"]`, the baseline and the backend's hash; the client's node is untouched and no mode is pushed |

## Left out

- `OLock.OLockMergeDualFilter.BeforeNode`: requires the baseline hash to be present on the side it is read from (`BaselineReadable`). If it is missing, the source throws a `NullPointerException` (lines 143 and 169). The model treats that as the caller's obligation instead of modelling the exception.
- `OLock.OLockMergeDualFilter.ScanCurrentNode` and `OLock.OLockMergeDualFilter.MergeCurrentNode`: require that same baseline hash, for the same reason.
- `OLock.OLockMergeDualFilter.BeforeNode`: requires a non-empty mode stack when `newNode` is not lock-protected, because `isMerging.push(null)` throws there (line 92). The requirement holds whenever hooks are paired.
- `OLock.OLockMergeDualFilter.AfterNode`: requires a non-empty mode stack, because `pop()` throws on an empty deque (line 108). The requirement holds whenever hooks are paired.
- `OLock.OLockMergeDualFilter.AfterNodeProperty`, `OLock.OLockMergeDualFilter.AfterListElement`: require a non-empty path. The source's deque throws `NoSuchElementException` on an empty one.
- Exception message text (lines 155-156, 181-182): not modelled word for word. `MergeConflict` carries what goes into the message: the path and the two hashes.
- `Nodes.toSimpleEscapedPath`, the path renderer, is not part of this model. `UserReadableNodeDescription` takes it as a function parameter.
- The traversal driver (`ConfigNodeTraverser`, `ADualNodeFilter`) is not part of this model. The model states no whole-tree merge result. The scenarios only call the hooks in a fixed order.
- Hash computation and the real values of `OLOCK_HASH_KEY` and `OLD_OLOCK_HASH_KEY` (defined in `Configuration` and `OLockNodeMerger`) are not part of this model. The two keys are distinct stand-in strings, and hashes are values compared only for equality.
- `LinkedHashMap` insertion order in `swap`: node contents are an unordered `map`.
- Concurrency: none exists in the source. A filter is per-merge state.
