/** The part of a llamaindex node the adapter reads: its id, its metadata
    object and its (optional) embedding. */
module Nodes {
  import opened Wrappers
  import opened JsSemantics

  datatype Node = Node(nodeId: string, metadata: map<string, JsValue>, embedding: Option<seq<int>>)
}
