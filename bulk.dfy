/**
 * Bulk operation construction: the `objects.map(...)` of
 * `createOrUpdateObjectsInBulk` and the `objectIds.map(...)` of
 * `deleteObjectsInBulk` (StarhiveClient.ts).
 */
module Bulk {
  import opened Domain
  import opened Encoding
  import opened Request

  /** One operation of a bulk request, by `objectOperationType`. */
  datatype BulkOperation =
    | CreateOperation(typeId: string, attributes: seq<AttributeInput>, transitions: map<string, TransitionInput>)
    | PatchOperation(objectId: string, attributes: seq<AttributeInput>, transitions: map<string, TransitionInput>)
    | DeleteOperation(objectId: string)

  /** The body posted to the bulk endpoint. */
  datatype BulkRequest = BulkRequest(operations: seq<BulkOperation>)

  /** The operation an object becomes: a patch when its id is truthy, a create otherwise. */
  function OperationFor(enc: Encoders, obj: StarhiveObject): BulkOperation {
    var data := RequestOf(enc, obj.visits);
    if IsTruthy(obj.id) then PatchOperation(obj.id.value, data.attributes, data.transitions)
    else CreateOperation(obj.typeId, data.attributes, data.transitions)
  }

  /** The create/update operation list, one per object, in order. */
  method CreateOrUpdateOperations(enc: Encoders, objects: seq<StarhiveObject>) returns (ops: seq<BulkOperation>)
    ensures |ops| == |objects|
    ensures forall i :: 0 <= i < |objects| ==> ops[i] == OperationFor(enc, objects[i])
    ensures forall i :: 0 <= i < |objects| && IsTruthy(objects[i].id) ==>
      ops[i].PatchOperation? && ops[i].objectId == objects[i].id.value
    ensures forall i :: 0 <= i < |objects| && !IsTruthy(objects[i].id) ==>
      ops[i].CreateOperation? && ops[i].typeId == objects[i].typeId
    ensures forall i :: 0 <= i < |objects| ==>
      ops[i].attributes == RequestOf(enc, objects[i].visits).attributes &&
      ops[i].transitions == RequestOf(enc, objects[i].visits).transitions
  {
    ops := [];
    for i := 0 to |objects|
      invariant |ops| == i
      invariant forall k :: 0 <= k < i ==> ops[k] == OperationFor(enc, objects[k])
    {
      var obj := objects[i];
      var data := CreateRequestObject(enc, obj);
      var op;
      if IsTruthy(obj.id) {
        op := PatchOperation(obj.id.value, data.attributes, data.transitions);
      } else {
        op := CreateOperation(obj.typeId, data.attributes, data.transitions);
      }
      ops := ops + [op];
    }
  }

  /** The delete operation list: one `delete` per id, in order. */
  function DeleteOperations(objectIds: seq<string>): (ops: seq<BulkOperation>)
    ensures |ops| == |objectIds|
    ensures forall i :: 0 <= i < |objectIds| ==> ops[i] == DeleteOperation(objectIds[i])
  {
    if objectIds == [] then []
    else [DeleteOperation(objectIds[0])] + DeleteOperations(objectIds[1..])
  }
}
