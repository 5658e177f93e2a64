/** `validateMetadata`: Pinecone metadata values must be strings, numbers,
    booleans or arrays of those; an object (or null) is refused. */
module MetadataUtils {
  import opened Wrappers
  import opened JsSemantics

  datatype MetadataError =
    | KeyNotString(badKey: JsValue)
    | ValueIsObject(key: string)
    | MemberIsObject(key: string)

  /** The message of the `Error` thrown for a metadata value (the key that is
      not a string is rendered by the JavaScript runtime and is not modelled). */
  function ValueMessage(e: MetadataError): (message: string)
    requires !e.KeyNotString?
    ensures |message| > |e.key|
    ensures e.ValueIsObject? ==> |message| >= 19 + |e.key| && message[19..19 + |e.key|] == e.key
    ensures e.MemberIsObject? ==> |message| >= 29 + |e.key| && message[29..29 + |e.key|] == e.key
  {
    if e.ValueIsObject? then "Metadata value for " + e.key + " cannot be an object"
    else "Metadata value for member of " + e.key + " cannot be an object"
  }

  /** `isAnObject`: `typeof value === "object"` and not an array, so true for
      plain objects and for null. */
  predicate IsAnObject(value: JsValue) {
    TypeofIsObject(value) && !value.JsArray?
  }

  /** `validateMetadata` checks the key, then the value, then each member of
      an array value in order, and throws at the first failure. */
  method ValidateMetadata(key: JsValue, value: JsValue) returns (error: Option<MetadataError>)
    ensures error == None <==>
      key.JsString? && !IsAnObject(value) &&
      (value.JsArray? ==> forall i :: 0 <= i < |value.elements| ==> !IsAnObject(value.elements[i]))
    ensures !key.JsString? ==> error == Some(KeyNotString(key))
    ensures key.JsString? && IsAnObject(value) ==> error == Some(ValueIsObject(key.str))
    ensures key.JsString? && !IsAnObject(value) && error != None ==> error == Some(MemberIsObject(key.str))
  {
    if !key.JsString? {
      return Some(KeyNotString(key));
    } else if IsAnObject(value) {
      return Some(ValueIsObject(key.str));
    } else if value.JsArray? {
      var i := 0;
      while i < |value.elements|
        invariant 0 <= i <= |value.elements|
        invariant forall j :: 0 <= j < i ==> !IsAnObject(value.elements[j])
      {
        if IsAnObject(value.elements[i]) {
          return Some(MemberIsObject(key.str));
        }
        i := i + 1;
      }
    }
    return None;
  }
}

/** `SimpleMetadataBuilder`: the node's id under `nodeId`, followed by a
    spread of the node's own metadata. */
module SimpleMetadataBuilder {
  import opened JsSemantics
  import opened Nodes

  /** `{ nodeId: node.nodeId, ...node.metadata }`: every metadata entry is
      kept, and `nodeId` is the node's id unless the metadata has its own
      `nodeId` entry, which the spread writes over it. */
  function BuildMetadata(node: Node): (metadata: map<string, JsValue>)
    ensures metadata.Keys == node.metadata.Keys + {"nodeId"}
    ensures forall k :: k in node.metadata ==> metadata[k] == node.metadata[k]
    ensures "nodeId" !in node.metadata ==> metadata["nodeId"] == JsString(node.nodeId)
  {
    map["nodeId" := JsString(node.nodeId)] + node.metadata
  }
}
