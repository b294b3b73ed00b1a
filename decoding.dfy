/**
 * Response dispatch into a decoder: `parseJsonObject` (StarhiveClient.ts)
 * driving a `JsonDecoder` (JsonDecoder.ts) with the wire attributes of a
 * response body, wrapped as `JsonAttributeValue`s (JsonAttributeValue.ts).
 */
module Decoding {
  import opened Wrappers

  /**
   * One raw value of a wire attribute. `details` is the optional structured
   * payload, passed through unparsed; the model keeps it opaque.
   */
  datatype JsonAttributeValue = JsonAttributeValue(valueId: string, value: string, details: Option<string>)

  /** One entry of a response body's `attributes` list. */
  datatype WireAttribute = WireAttribute(attributeId: string, values: seq<JsonAttributeValue>)

  /** A JSON object as the server returns it. */
  datatype WireObject = WireObject(id: string, typeId: string, attributes: seq<WireAttribute>)

  /** A call the client makes on a decoder. */
  datatype DecoderCall =
    | SetId(id: string)
    | VisitJsonAttribute(attributeId: string, values: seq<JsonAttributeValue>)
    | Build

  /** A registered decoder factory, by the generated decoder it creates. */
  datatype DecoderFactory = DecoderFactory(decoderName: string)

  /**
   * What `build()` returns. The generated decoders are outside this model,
   * so the built object is known only as a function of the decoder and of
   * the calls it received before `build()`.
   */
  datatype DecodedObject = DecodedObject(decoder: DecoderFactory, calls: seq<DecoderCall>)

  /** A decoder instance, seen through the calls it receives. */
  class JsonDecoder {
    const factory: DecoderFactory
    var calls: seq<DecoderCall>

    constructor (factory: DecoderFactory)
      ensures this.factory == factory && calls == []
    {
      this.factory := factory;
      calls := [];
    }

    method SetId(id: string)
      modifies this
      ensures calls == old(calls) + [DecoderCall.SetId(id)]
    {
      calls := calls + [DecoderCall.SetId(id)];
    }

    method VisitJsonAttribute(attributeId: string, values: seq<JsonAttributeValue>)
      modifies this
      ensures calls == old(calls) + [DecoderCall.VisitJsonAttribute(attributeId, values)]
    {
      calls := calls + [DecoderCall.VisitJsonAttribute(attributeId, values)];
    }

    method Build() returns (obj: DecodedObject)
      modifies this
      ensures obj == DecodedObject(factory, old(calls))
      ensures calls == old(calls) + [DecoderCall.Build]
    {
      obj := DecodedObject(factory, calls);
      calls := calls + [DecoderCall.Build];
    }
  }

  /** One `visitJsonAttribute` per wire attribute, in the body's order. */
  function AttributeCalls(attributes: seq<WireAttribute>): (r: seq<DecoderCall>)
    ensures |r| == |attributes|
    ensures forall i :: 0 <= i < |attributes| ==>
      r[i] == VisitJsonAttribute(attributes[i].attributeId, attributes[i].values)
  {
    if attributes == [] then []
    else [VisitJsonAttribute(attributes[0].attributeId, attributes[0].values)] + AttributeCalls(attributes[1..])
  }

  /** The calls `parseJsonObject` makes: `setId`, the attributes, then `build`. */
  function ParseCalls(body: WireObject): seq<DecoderCall> {
    [SetId(body.id)] + AttributeCalls(body.attributes) + [Build]
  }

  /** The object a fresh decoder of `factory` builds from `body`. */
  function Decode(factory: DecoderFactory, body: WireObject): DecodedObject {
    DecodedObject(factory, [SetId(body.id)] + AttributeCalls(body.attributes))
  }

  /**
   * The decoder hears the id first, then every wire attribute exactly once
   * and in order, and `build` last; nothing else.
   */
  lemma ParseCallsOrder(body: WireObject)
    ensures |ParseCalls(body)| == |body.attributes| + 2
    ensures ParseCalls(body)[0] == SetId(body.id)
    ensures ParseCalls(body)[|body.attributes| + 1] == Build
    ensures forall i :: 0 <= i < |body.attributes| ==>
      ParseCalls(body)[i + 1] == VisitJsonAttribute(body.attributes[i].attributeId, body.attributes[i].values)
  {
  }

  /** `parseJsonObject`: drive `decoder` through the body and return what it builds. */
  method ParseJsonObject(body: WireObject, decoder: JsonDecoder) returns (obj: DecodedObject)
    modifies decoder
    ensures decoder.calls == old(decoder.calls) + ParseCalls(body)
    ensures obj == DecodedObject(decoder.factory, old(decoder.calls) + [SetId(body.id)] + AttributeCalls(body.attributes))
  {
    decoder.SetId(body.id);
    var i := 0;
    while i < |body.attributes|
      invariant 0 <= i <= |body.attributes|
      invariant decoder.calls == old(decoder.calls) + [SetId(body.id)] + AttributeCalls(body.attributes[..i])
    {
      var e := body.attributes[i];
      var values := e.values;
      decoder.VisitJsonAttribute(e.attributeId, values);
      AttributeCallsAppend(body.attributes[..i], e);
      assert body.attributes[..i + 1] == body.attributes[..i] + [e];
      i := i + 1;
    }
    assert body.attributes[..i] == body.attributes;
    obj := decoder.Build();
  }

  /** Adding a wire attribute at the end adds its call at the end. */
  lemma AttributeCallsAppend(attributes: seq<WireAttribute>, e: WireAttribute)
    ensures AttributeCalls(attributes + [e]) == AttributeCalls(attributes) + [VisitJsonAttribute(e.attributeId, e.values)]
  {
  }
}
