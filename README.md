# Edge markers, global key handling and selection-change registration of a node-link diagram editor

This project models three pieces of logic of the xyflow diagram editor that sit
on top of its shared graph store, and proves properties of them in Dafny.

- **Edge data model** (`edges.dfy`, module `Edges`): the closed `MarkerType`
  enumeration with its eight wire-stable strings and a parser for them, the
  `ConnectionLineType` enumeration (five strings, `Bezier` written `"default"`),
  the `EdgeMarker` record and the `EdgeMarkerType` union (a bare string or a
  marker record), the `Edge` record with its three variants (a default edge
  with a free `type`, a smoothstep edge and a bezier edge, each with its own
  path options), `EdgeUpdatable`, and `DefaultEdgeOptions`, the options part of
  an edge without its identity, endpoints, handles and nodes.
- **Marker resolution** (`marker_symbols.dfy`, module `MarkerSymbols`): the
  constant symbol table keyed by the marker types' wire strings, each symbol as
  its fixed template (polyline points or a circle) and its kind of fill, the
  drawing defaults (color `"none"`, stroke width 1), and `useMarkerSymbol`: an
  own-key lookup that yields the table entry, or on a miss reports code `"009"`
  with the offending type to the store's `onError` (when one is registered) and
  yields null. The error call is returned as a value beside the result.
- **Global key handler** (`global_key_handler.dfy`, module `GlobalKeyHandler`):
  a hook object holding a reference to the store, the dependency values its two
  effects last saw, and the log of calls it made to `deleteElements`. When the
  delete key's state changes to pressed, it asks to delete exactly the selected
  nodes and edges, in store order, with the store's `onBeforeDelete`, then
  clears `nodesSelectionActive`. When the multi-selection key's state changes,
  it writes that state into `multiSelectionActive`.
- **Selection-change registration** (`on_selection_change.dfy`, module
  `OnSelectionChange`): registering appends the handler to the store's
  `onSelectionChangeHandlers`; cleanup removes every occurrence of it. The hook
  object re-runs cleanup and registration when its handler changes, and runs
  cleanup on unmount.

Shared pieces: `store.dfy` (module `Store`) is the store as a class holding the
fields these hooks read and write, constructed with given nodes and edges and
everything else empty (the store's real initial state is not part of this
model); `sequences.dfy` (module `Sequences`) is `Array.prototype.filter` with
its algebra; `wrappers.dfy` holds `Option`, used for optional properties.

Callbacks are identified by a `HandlerId` (a natural number), standing for the
identity of a JavaScript function, which is what the cleanup's `!==` compares.
JavaScript numbers are modelled as `real`. An optional, nullable string
(`sourceHandle?: string | null`) is `Option<Option<string>>`.

Behaviours of the source worth knowing:
- The delete effect also runs on the first render
  (packages/react/src/hooks/useGlobalKeyHandler.ts:31-37), so a delete key
  already pressed at mount deletes once.
- `useMarkerSymbol` takes a type string only
  (packages/core/src/container/EdgeRenderer/MarkerSymbols.tsx:151); a marker
  record is never resolved.
- An SVG symbol whose style sets a fill and whose attribute sets `fill="none"`
  (the hollow diamond and the filled diamond) is modelled with the style's
  fill, since a style property overrides a presentation attribute.

## Model

| member | source | states |
|---|---|---|
| Edges.ParseMarkerType | packages/core/src/types/edges.ts:182-199 | parsing yields member m exactly when s is m's wire string, so the mapping is injective and every other string parses to nothing |
| Edges.MarkerTypeEnumeration | packages/core/src/types/edges.ts:182-199 | the enumeration has eight members, lists every member, and its wire strings are pairwise distinct |
| Edges.MarkerTypeRoundTrip | packages/core/src/types/edges.ts:182-199 | parsing a member's wire string gives back that member |
| Edges.ParseConnectionLineType | packages/core/src/types/edges.ts:144-150 | parsing yields line type c exactly when s is c's wire string |
| Edges.ConnectionLineTypeEnumeration | packages/core/src/types/edges.ts:144-150 | five members, all listed, with pairwise distinct wire strings (Bezier is "default") |
| Edges.EdgeType | packages/core/src/types/edges.ts:49-63 | the smoothstep variant's type is "smoothstep" and the bezier variant's is "default", the same strings as the matching connection line types; a default edge keeps its optional free type |
| Edges.OmitIdentity | packages/core/src/types/edges.ts:65-68 | the options of an edge keep its type and its other fourteen non-identity fields unchanged (all fifteen option fields, the type included) |
| Edges.OmitIdentityDeterminesOptions | packages/core/src/types/edges.ts:65-68 | two edges with equal options agree on their type and on every field that is not identity |
| Edges.OmitIdentityIgnoresIdentity | packages/core/src/types/edges.ts:65-68 | changing id, source, target, either handle or either node never changes an edge's options |
| Edges.OmitIdentityDropsPathOptions | packages/core/src/types/edges.ts:49-68 | path options are not part of the options (not a property of every union member); only the type string is |
| MarkerSymbols.MarkerSymbolTableKeys | packages/core/src/container/EdgeRenderer/MarkerSymbols.tsx:140-149 | the table's key set is exactly the set of the eight marker types' wire strings |
| MarkerSymbols.MarkerSymbolTableInjective | packages/core/src/container/EdgeRenderer/MarkerSymbols.tsx:10-149 | distinct marker types are mapped to distinct symbols (template and fill) |
| MarkerSymbols.ArrowTemplates | packages/core/src/container/EdgeRenderer/MarkerSymbols.tsx:10-72 | closed and empty arrows share an outline whose last point is its first; the line arrow is that outline without the closing point; the single arrow keeps its first two points |
| MarkerSymbols.Draw | packages/core/src/container/EdgeRenderer/MarkerSymbols.tsx:8-138 | a drawn symbol keeps its template; it strokes in the given color or "none" when omitted, at the given width or 1 when omitted, each on its own; unfilled symbols fill "none", filled ones the stroke color, hollow ones white |
| MarkerSymbols.PropsOf | packages/core/src/container/EdgeRenderer/MarkerSymbols.tsx:8 | a marker record passes every field but its type to its symbol |
| MarkerSymbols.DrawIgnoresMarkerBox | packages/core/src/container/EdgeRenderer/MarkerSymbols.tsx:11-137 | width, height, markerUnits and orient of a marker record never change what its symbol draws |
| MarkerSymbols.DrawDefaults | packages/core/src/container/EdgeRenderer/MarkerSymbols.tsx:11-137 | with color and stroke width omitted, every symbol strokes "none" at width 1 and fills "none" or white |
| MarkerSymbols.UseMarkerSymbol | packages/core/src/container/EdgeRenderer/MarkerSymbols.tsx:151-167 | a table key yields its entry and no error call; any other type yields null and exactly one call of the registered onError with code "009" and that type, or no call when none is registered |
| MarkerSymbols.UseMarkerSymbolAgreesWithParse | packages/core/src/container/EdgeRenderer/MarkerSymbols.tsx:155-163 | resolution succeeds exactly when the string parses as a marker type, and makes one error call exactly when it fails with a handler registered |
| MarkerSymbols.ResolvesEveryMarkerType | packages/core/src/container/EdgeRenderer/MarkerSymbols.tsx:140-163 | every marker type resolves without an error call, to a symbol no other type resolves to |
| MarkerSymbols.InheritedNamesDoNotResolve | packages/core/src/container/EdgeRenderer/MarkerSymbols.tsx:155 | names inherited from Object.prototype (toString, constructor, hasOwnProperty, valueOf) resolve to null |
| MarkerSymbols.SymbolIndependentOfErrorHandler | packages/core/src/container/EdgeRenderer/MarkerSymbols.tsx:154-164 | the resolved symbol depends on the type alone |
| Sequences.Filter | packages/react/src/hooks/useOnSelectionChange.ts:24 | the filtered list holds only kept elements of the input and every kept element of it |
| GlobalKeyHandler.SelectionToDelete | packages/react/src/hooks/useGlobalKeyHandler.ts:9-34 | the deletion request holds only selected nodes and edges of the store, every selected one, and the store's onBeforeDelete |
| GlobalKeyHandler.SelectionToDeleteCounts | packages/react/src/hooks/useGlobalKeyHandler.ts:34 | a selected item is passed as often as it occurs in the store; an item whose selected is undefined or false never is |
| GlobalKeyHandler.SelectionToDeleteKeepsOrder | packages/react/src/hooks/useGlobalKeyHandler.ts:34 | the selection of a concatenation is the concatenation of the selections, so store order is kept |
| GlobalKeyHandler.DeleteBranchRuns | packages/react/src/hooks/useGlobalKeyHandler.ts:31-37 | the delete branch runs exactly when the key is pressed and the effect's last dependency was not pressed |
| GlobalKeyHandler.HeldDeleteKeyDeletesNothing | packages/react/src/hooks/useGlobalKeyHandler.ts:31-37 | a run of pressed renders after a pressed one causes no deletion |
| GlobalKeyHandler.DeletionsOverSnoc | packages/react/src/hooks/useGlobalKeyHandler.ts:31-37 | one more render adds one deletion exactly when the delete branch runs against the last key state |
| GlobalKeyHandler.DeletionsPerPress | packages/react/src/hooks/useGlobalKeyHandler.ts:31-37 | k press-and-release cycles after a release delete exactly k times |
| GlobalKeyHandler.KeyHandlerHook.DeleteKeyEffect | packages/react/src/hooks/useGlobalKeyHandler.ts:32-35 | when pressed, one deleteElements call with the selection is recorded and nodesSelectionActive becomes false; writes nothing else, never multiSelectionActive |
| GlobalKeyHandler.KeyHandlerHook.MultiSelectionKeyEffect | packages/react/src/hooks/useGlobalKeyHandler.ts:40 | multiSelectionActive becomes the key state, and nothing else is written |
| GlobalKeyHandler.KeyHandlerHook.Render | packages/react/src/hooks/useGlobalKeyHandler.ts:31-41 | the delete branch fires only on a change to pressed; after every change of the multi-selection key state, multiSelectionActive equals it; the flag stays in step with the key |
| GlobalKeyHandler.KeyHandlerHook.RenderDeleteKeyStates | packages/react/src/hooks/useGlobalKeyHandler.ts:31-37 | successive renders make exactly as many deleteElements calls as DeletionsOver counts, each with the selection read before the call; nodesSelectionActive is false once a deletion happened and unchanged otherwise; multiSelectionActive follows the key as in one render and stays in step with it |
| GlobalKeyHandler.HoldMultiSelectionThenDelete | packages/react/src/hooks/useGlobalKeyHandler.ts:31-41 | holding multi-selection and then holding delete deletes the selection once while multiSelectionActive stays true |
| OnSelectionChange.Registered | packages/react/src/hooks/useOnSelectionChange.ts:20 | registering yields the old list, unchanged, with onChange appended; the length grows by one |
| OnSelectionChange.Unregistered | packages/react/src/hooks/useOnSelectionChange.ts:24 | cleanup leaves no occurrence of onChange and keeps every other handler |
| OnSelectionChange.UnregisteredCounts | packages/react/src/hooks/useOnSelectionChange.ts:24 | cleanup removes every copy of onChange and keeps every copy of every other handler |
| OnSelectionChange.UnregisteredKeepsOrder | packages/react/src/hooks/useOnSelectionChange.ts:24 | remaining handlers keep their relative order |
| OnSelectionChange.UnregisteredIdempotent | packages/react/src/hooks/useOnSelectionChange.ts:24 | cleaning up twice gives the same list as cleaning up once |
| OnSelectionChange.UnregisteredCommutes | packages/react/src/hooks/useOnSelectionChange.ts:24 | cleanups of two handlers can run in either order |
| OnSelectionChange.RegisterThenUnregisterRestores | packages/react/src/hooks/useOnSelectionChange.ts:20-24 | registering a handler not already present and cleaning it up restores the original list |
| OnSelectionChange.UnregisterRemovesSharedRegistrations | packages/react/src/hooks/useOnSelectionChange.ts:20-24 | when the same handler is registered twice, a single cleanup removes both registrations |
| OnSelectionChange.Register | packages/react/src/hooks/useOnSelectionChange.ts:20-21 | the store's handler list becomes the registered list; no other field is written |
| OnSelectionChange.Unregister | packages/react/src/hooks/useOnSelectionChange.ts:24-25 | the store's handler list becomes the cleaned-up current list; no other field is written |
| OnSelectionChange.SelectionChangeHook.Render | packages/react/src/hooks/useOnSelectionChange.ts:19-27 | with an unchanged handler nothing is written; with a new one the old one is cleaned up and the new one appended |
| OnSelectionChange.SelectionChangeHook.Unmount | packages/react/src/hooks/useOnSelectionChange.ts:23-26 | unmounting cleans up the registered handler |
| OnSelectionChange.MountThenUnmount | packages/react/src/hooks/useOnSelectionChange.ts:19-27 | mounting with a handler not present, re-rendering and unmounting leaves the store's list as it was |

## Left out

- Spatial culling (`useVisibleNodeIds`): its algorithm lives in `getNodesInside` of the system package, which is not part of this model.
- `useEdges` and `ViewportPortal`: a store selector whose behaviour is zustand's shallow comparison, and DOM portal mounting; no logic of their own.
- The internals of `deleteElements` (edge closure over removed nodes, the `onBeforeDelete` veto): not part of this model; the call is recorded with its arguments, and the store's nodes and edges are left as they were.
- Key listening (`useKeyPress`), including a null key code disabling a binding: not part of this model; each render receives the resulting booleans.
- React effect and memo scheduling and store notifications: only an effect's dependency comparison is modelled. With the memo keyed on the type, `onError` is called once per change of type; `MarkerSymbols.UseMarkerSymbol` reports the error call of one evaluation.
- The text of error message 009 (defined in a constants file that is not part of this model): only the code and the offending type are recorded.
- SVG presentation of the symbols (line caps and joins, style objects): each symbol is its template and its kind of fill.
- CSS style objects, React-node labels and the component prop types of `edges.ts` (`WrapEdgeProps`, `EdgeProps`, `BaseEdgeProps`, `EdgeTextProps`, `ConnectionLineComponentProps`, mouse handler types): presentation and callback types with no data-model logic.
- `Node` is reduced to its id and `selected` flag, and `HandleType` to its two ends; both are declared in files that are not part of this model.
- JavaScript numbers are `real`: IEEE rounding is not modelled; no operation here computes with them.
