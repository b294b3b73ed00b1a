/**
 * `StarhiveClient` (StarhiveClient.ts): the decoder registry, the id guard
 * of `updateObject`, the `typeId` stamping of `createObject`, and which
 * request each operation hands to the transport. The transport's answers
 * are parameters; `sent` is the log of requests handed to it.
 */
module Client {
  import opened Wrappers
  import opened Domain
  import opened Encoding
  import opened Request
  import opened Bulk
  import opened Decoding

  /** The default `baseUrl` of the constructor. */
  const DefaultBaseUrl: string := "https://api.starhive.com/public/v1"

  /** The message of the error `updateObject` throws for an object without id. */
  const ObjectIdMissingMessage: string := "Object id is missing"

  /** The default page window of `search`. */
  const DefaultOffset: int := 0
  const DefaultLimit: int := 50

  /**
   * What the client throws: an `Error` with a message, or the `TypeError`
   * JavaScript raises when `decoders.get(typeId)!!()` calls `undefined`.
   */
  datatype ClientError = Error(message: string) | TypeError

  /** A request handed to the transport, by endpoint and body. */
  datatype HttpRequest =
    | GetObjectRequest(objectId: string)
    | PostObjectRequest(body: ObjectData)
    | PatchObjectRequest(objectId: string, body: ObjectData)
    | PostBulkRequest(bulk: BulkRequest)
    | SearchRequest(typeId: string, query: string, offset: int, limit: int)

  /** The operation a bulk item reports on. */
  datatype OperationAction = CREATE | PATCH | DELETE

  /** A field-level violation of a failed bulk item. */
  datatype Violation = Violation(
    fieldIdentifier: Option<string>, domain: Option<string>,
    violationType: Option<string>, invalidValue: Option<string>)

  /** One item of a bulk response. */
  datatype BulkItemResult =
    | BulkItemSuccess(operationAction: OperationAction, index: int, objectId: string)
    | BulkItemFailure(operationAction: OperationAction, index: int, violations: seq<Violation>)

  /** The server's answer to a bulk request, passed through unchecked. */
  datatype BulkResponse = BulkResponse(failures: bool, result: seq<BulkItemResult>)

  /** A search envelope once its numeric and boolean fields are parsed. */
  datatype SearchResponse = SearchResponse(total: int, pageSize: int, isLast: bool, result: seq<WireObject>)

  /** One page of search results (StarhivePage.ts). */
  datatype StarhivePage<T> = StarhivePage(total: int, pageSize: int, isLast: bool, result: seq<T>)

  /** The decoder registry: type id to decoder factory. */
  type DecoderRegistry = map<string, DecoderFactory>

  /** `decoders.get(typeId)!!`: the factory, or the `TypeError` of calling `undefined`. */
  function LookupDecoder(decoders: DecoderRegistry, typeId: string): (r: Result<DecoderFactory, ClientError>)
    ensures r.Success? <==> typeId in decoders
    ensures r.Success? ==> r.value == decoders[typeId]
    ensures r.Failure? ==> r.error == TypeError
  {
    if typeId in decoders then Success(decoders[typeId]) else Failure(TypeError)
  }

  /** The guard of `updateObject`: the id, or the "Object id is missing" error for a falsy id. */
  function RequireId(obj: StarhiveObject): (r: Result<string, ClientError>)
    ensures r.Success? <==> obj.id.Some? && obj.id.value != ""
    ensures r.Success? ==> Some(r.value) == obj.id
    ensures r.Failure? ==> r.error == Error("Object id is missing")
  {
    if !IsTruthy(obj.id) then Failure(Error(ObjectIdMissingMessage)) else Success(obj.id.value)
  }

  /** The body `createObject` posts: the request of the object, stamped with its type id. */
  function CreatePayload(enc: Encoders, obj: StarhiveObject): (d: ObjectData)
    ensures d.typeId == Some(obj.typeId)
    ensures d.attributes == RequestOf(enc, obj.visits).attributes
    ensures d.transitions == RequestOf(enc, obj.visits).transitions
  {
    RequestOf(enc, obj.visits).(typeId := Some(obj.typeId))
  }

  /** Look up the decoder for `typeId`, create one, and parse `body` with it. */
  method DecodeWith(decoders: DecoderRegistry, typeId: string, body: WireObject)
    returns (r: Result<DecodedObject, ClientError>)
    ensures r.Success? <==> typeId in decoders
    ensures r.Success? ==> r.value == Decode(decoders[typeId], body)
    ensures r.Failure? ==> r.error == TypeError
  {
    var factory := LookupDecoder(decoders, typeId);
    if factory.Failure? {
      return Failure(factory.error);
    }
    var decoder := new JsonDecoder(factory.value);
    var obj := ParseJsonObject(body, decoder);
    return Success(obj);
  }

  /**
   * The `result.map(...)` of `search`: decode every object with the decoder
   * of its own type id; one missing decoder fails the whole page.
   */
  method DecodeAll(decoders: DecoderRegistry, bodies: seq<WireObject>)
    returns (r: Result<seq<DecodedObject>, ClientError>)
    ensures r.Success? <==> forall i :: 0 <= i < |bodies| ==> bodies[i].typeId in decoders
    ensures r.Success? ==> |r.value| == |bodies|
    ensures r.Success? ==> forall i :: 0 <= i < |bodies| ==>
      r.value[i] == Decode(decoders[bodies[i].typeId], bodies[i])
    ensures r.Failure? ==> r.error == TypeError
  {
    var objects: seq<DecodedObject> := [];
    for i := 0 to |bodies|
      invariant |objects| == i
      invariant forall k :: 0 <= k < i ==> bodies[k].typeId in decoders
      invariant forall k :: 0 <= k < i ==> objects[k] == Decode(decoders[bodies[k].typeId], bodies[k])
    {
      var obj := DecodeWith(decoders, bodies[i].typeId, bodies[i]);
      if obj.Failure? {
        return Failure(obj.error);
      }
      objects := objects + [obj.value];
    }
    return Success(objects);
  }

  class StarhiveClient {
    const apiToken: string
    const workspaceId: string
    const baseUrl: string
    const decoders: DecoderRegistry
    /** The runtime's string conversions the serialiser relies on. */
    const encoders: Encoders
    /** The requests handed to the transport so far, oldest first. */
    var sent: seq<HttpRequest>

    constructor (apiToken: string, workspaceId: string, decoders: DecoderRegistry, encoders: Encoders,
                 baseUrl: string := DefaultBaseUrl)
      ensures this.apiToken == apiToken && this.workspaceId == workspaceId && this.baseUrl == baseUrl
      ensures this.decoders == decoders && this.encoders == encoders
      ensures sent == []
    {
      this.apiToken := apiToken;
      this.workspaceId := workspaceId;
      this.baseUrl := baseUrl;
      this.decoders := decoders;
      this.encoders := encoders;
      sent := [];
    }

    /** `getObject`: GET the object, then decode it with the decoder of `typeId`. */
    method GetObject(id: string, typeId: string, response: WireObject)
      returns (r: Result<DecodedObject, ClientError>)
      modifies this
      ensures sent == old(sent) + [GetObjectRequest(id)]
      ensures r.Success? <==> typeId in decoders
      ensures r.Success? ==> r.value == Decode(decoders[typeId], response)
      ensures r.Failure? ==> r.error == TypeError
    {
      sent := sent + [GetObjectRequest(id)];
      r := DecodeWith(decoders, typeId, response);
    }

    /**
     * `createObject`: POST the request of the object stamped with its type
     * id; the decoder is looked up only after the request was sent.
     */
    method CreateObject(obj: StarhiveObject, response: WireObject)
      returns (r: Result<DecodedObject, ClientError>)
      modifies this
      ensures sent == old(sent) + [PostObjectRequest(CreatePayload(encoders, obj))]
      ensures r.Success? <==> obj.typeId in decoders
      ensures r.Success? ==> r.value == Decode(decoders[obj.typeId], response)
      ensures r.Failure? ==> r.error == TypeError
    {
      var objectData := CreateRequestObject(encoders, obj);
      objectData := objectData.(typeId := Some(obj.typeId));
      sent := sent + [PostObjectRequest(objectData)];
      r := DecodeWith(decoders, obj.typeId, response);
    }

    /**
     * `updateObject`: an object with a falsy id fails with "Object id is
     * missing" and nothing is sent; otherwise PATCH its request under its id.
     */
    method UpdateObject(obj: StarhiveObject, response: WireObject)
      returns (r: Result<DecodedObject, ClientError>)
      modifies this
      ensures !IsTruthy(obj.id) ==> r == Failure(Error(ObjectIdMissingMessage)) && sent == old(sent)
      ensures IsTruthy(obj.id) ==>
        sent == old(sent) + [PatchObjectRequest(obj.id.value, RequestOf(encoders, obj.visits))]
      ensures IsTruthy(obj.id) ==> (r.Success? <==> obj.typeId in decoders)
      ensures IsTruthy(obj.id) && r.Success? ==> r.value == Decode(decoders[obj.typeId], response)
      ensures IsTruthy(obj.id) && r.Failure? ==> r.error == TypeError
    {
      var id := RequireId(obj);
      if id.Failure? {
        return Failure(id.error);
      }
      var objectData := CreateRequestObject(encoders, obj);
      sent := sent + [PatchObjectRequest(id.value, objectData)];
      r := DecodeWith(decoders, obj.typeId, response);
    }

    /** `createOrUpdateObjectsInBulk`: POST one create or patch operation per object. */
    method CreateOrUpdateObjectsInBulk(objects: seq<StarhiveObject>, response: BulkResponse)
      returns (r: BulkResponse)
      modifies this
      ensures |sent| == |old(sent)| + 1 && sent[..|old(sent)|] == old(sent)
      ensures sent[|old(sent)|].PostBulkRequest?
      ensures |sent[|old(sent)|].bulk.operations| == |objects|
      ensures forall i :: 0 <= i < |objects| ==>
        sent[|old(sent)|].bulk.operations[i] == OperationFor(encoders, objects[i])
      ensures r == response
    {
      var operations := CreateOrUpdateOperations(encoders, objects);
      sent := sent + [PostBulkRequest(BulkRequest(operations))];
      r := response;
    }

    /** `deleteObjectsInBulk`: POST one delete operation per id. */
    method DeleteObjectsInBulk(objectIds: seq<string>, response: BulkResponse)
      returns (r: BulkResponse)
      modifies this
      ensures sent == old(sent) + [PostBulkRequest(BulkRequest(DeleteOperations(objectIds)))]
      ensures r == response
    {
      sent := sent + [PostBulkRequest(BulkRequest(DeleteOperations(objectIds)))];
      r := response;
    }

    /**
     * `search`: GET the page, then decode each result with the decoder of
     * its own type id; the parsed envelope fields are passed through.
     */
    method Search(typeId: string, query: string, response: SearchResponse,
                  offset: int := DefaultOffset, limit: int := DefaultLimit)
      returns (r: Result<StarhivePage<DecodedObject>, ClientError>)
      modifies this
      ensures sent == old(sent) + [SearchRequest(typeId, query, offset, limit)]
      ensures r.Success? <==> forall i :: 0 <= i < |response.result| ==> response.result[i].typeId in decoders
      ensures r.Success? ==>
        r.value.total == response.total && r.value.pageSize == response.pageSize &&
        r.value.isLast == response.isLast && |r.value.result| == |response.result|
      ensures r.Success? ==> forall i :: 0 <= i < |response.result| ==>
        r.value.result[i] == Decode(decoders[response.result[i].typeId], response.result[i])
      ensures r.Failure? ==> r.error == TypeError
    {
      sent := sent + [SearchRequest(typeId, query, offset, limit)];
      var objects := DecodeAll(decoders, response.result);
      if objects.Failure? {
        return Failure(objects.error);
      }
      return Success(StarhivePage(response.total, response.pageSize, response.isLast, objects.value));
    }
  }
}
