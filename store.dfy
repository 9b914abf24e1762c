/**
  * The shared graph store, as a plain record of the fields the modelled hooks
  * read and write. Callbacks registered on the store (`onError`,
  * `onBeforeDelete`, selection-change handlers) are identified by a handler id,
  * which stands for the identity of the JavaScript function.
  */
module Store {
  import opened Wrappers
  import opened Edges

  type HandlerId = nat

  class FlowStore<T> {
    var nodes: seq<Node>
    var edges: seq<Edge<T>>
    var onBeforeDelete: Option<HandlerId>
    var onError: Option<HandlerId>
    var nodesSelectionActive: bool
    var multiSelectionActive: bool
    var onSelectionChangeHandlers: seq<HandlerId>

    constructor (nodes: seq<Node>, edges: seq<Edge<T>>)
      ensures this.nodes == nodes && this.edges == edges
      ensures onBeforeDelete == None && onError == None
      ensures !nodesSelectionActive && !multiSelectionActive
      ensures onSelectionChangeHandlers == []
    {
      this.nodes := nodes;
      this.edges := edges;
      onBeforeDelete := None;
      onError := None;
      nodesSelectionActive := false;
      multiSelectionActive := false;
      onSelectionChangeHandlers := [];
    }
  }
}
