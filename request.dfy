/**
 * Object-to-request serialisation: `createRequestObject` and its inline
 * attribute visitor (StarhiveClient.ts), which appends one
 * `{attributeId, values}` entry per present attribute and records
 * workflow transition directives in a map keyed by attribute id.
 */
module Request {
  import opened Wrappers
  import opened Domain
  import opened Encoding

  /** One `{attributeId, values}` entry of the request's `attributes` list. */
  datatype AttributeInput = AttributeInput(attributeId: string, values: seq<string>)

  /** The `{transitionId}` directive stored under an attribute id. */
  datatype TransitionInput = TransitionInput(transitionId: string)

  /** The request body of an object: optional `typeId`, `attributes`, `transitions`. */
  datatype ObjectData = ObjectData(
    typeId: Option<string>,
    attributes: seq<AttributeInput>,
    transitions: map<string, TransitionInput>)

  /** What `createRequestObject` starts from: both collections empty, no type id. */
  const EmptyRequest: ObjectData := ObjectData(None, [], map[])

  /** A visit that the visitor ignores entirely. */
  predicate IsVoid(v: Visit) {
    if v.VisitWorkflow? then v.state.None? && v.transition.None? else IsAbsent(v)
  }

  /** A workflow visit that records a transition directive under `key`. */
  predicate SetsTransition(v: Visit, key: string) {
    v.VisitWorkflow? && v.attributeId == key && v.transition.Some?
  }

  /** The attribute entries one visit appends: none or one. */
  function Entries(enc: Encoders, v: Visit): seq<AttributeInput> {
    match v
    case VisitWorkflow(id, state, transition) =>
      if state.Some? then [AttributeInput(id, [state.value.id])]
      else if transition.Some? then [AttributeInput(id, [transition.value.to.id])]
      else []
    case _ =>
      if IsAbsent(v) then [] else [AttributeInput(v.attributeId, EncodedValues(enc, v))]
  }

  /** The transition map after one visit. */
  function Directives(m: map<string, TransitionInput>, v: Visit): map<string, TransitionInput> {
    if v.VisitWorkflow? && v.transition.Some?
    then m[v.attributeId := TransitionInput(v.transition.value.id)]
    else m
  }

  /** The effect of one visitor callback on the request under construction. */
  function Step(enc: Encoders, d: ObjectData, v: Visit): ObjectData {
    d.(attributes := d.attributes + Entries(enc, v), transitions := Directives(d.transitions, v))
  }

  /** The request built from the visits issued so far, left to right. */
  function RequestOf(enc: Encoders, vs: seq<Visit>): ObjectData
    decreases |vs|
  {
    if vs == [] then EmptyRequest
    else Step(enc, RequestOf(enc, vs[..|vs| - 1]), vs[|vs| - 1])
  }

  /** The entries of all visits, read from the first visit to the last. */
  function AllEntries(enc: Encoders, vs: seq<Visit>): seq<AttributeInput> {
    if vs == [] then [] else Entries(enc, vs[0]) + AllEntries(enc, vs[1..])
  }

  /** Directive maps compose with later keys overriding earlier ones. */
  lemma DirectivesOverUnion(m1: map<string, TransitionInput>, m2: map<string, TransitionInput>, v: Visit)
    ensures Directives(m1 + m2, v) == m1 + Directives(m2, v)
  {
  }

  /**
   * Serialising a concatenation of visits concatenates the attribute lists
   * and merges the transition maps, the later visits winning on a shared key.
   */
  lemma {:induction false} RequestOfAppend(enc: Encoders, a: seq<Visit>, b: seq<Visit>)
    ensures RequestOf(enc, a + b) == ObjectData(
      None,
      RequestOf(enc, a).attributes + RequestOf(enc, b).attributes,
      RequestOf(enc, a).transitions + RequestOf(enc, b).transitions)
  {
    if b == [] {
      assert a + b == a;
      assert RequestOf(enc, a).transitions + map[] == RequestOf(enc, a).transitions;
      NoTypeId(enc, a);
    } else {
      var b', x := b[..|b| - 1], b[|b| - 1];
      assert (a + b)[..|a + b| - 1] == a + b';
      assert (a + b)[|a + b| - 1] == x;
      RequestOfAppend(enc, a, b');
      DirectivesOverUnion(RequestOf(enc, a).transitions, RequestOf(enc, b').transitions, x);
    }
  }

  /** `createRequestObject` never sets `typeId`. */
  lemma {:induction false} NoTypeId(enc: Encoders, vs: seq<Visit>)
    ensures RequestOf(enc, vs).typeId == None
  {
    if vs != [] {
      NoTypeId(enc, vs[..|vs| - 1]);
    }
  }

  /** A single visit serialises to exactly its own entries and directive. */
  lemma SingleVisit(enc: Encoders, v: Visit)
    ensures RequestOf(enc, [v]) == ObjectData(None, Entries(enc, v), Directives(map[], v))
  {
    assert [v][..0] == [];
  }

  /**
   * An attribute left `undefined` (or a workflow with neither state nor
   * transition), wherever `accept` visits it, changes nothing in the request.
   */
  lemma VoidVisitIsInvisible(enc: Encoders, a: seq<Visit>, v: Visit, b: seq<Visit>)
    requires IsVoid(v)
    ensures RequestOf(enc, a + [v] + b) == RequestOf(enc, a + b)
  {
    RequestOfAppend(enc, a + [v], b);
    RequestOfAppend(enc, a, [v]);
    RequestOfAppend(enc, a, b);
    SingleVisit(enc, v);
    assert RequestOf(enc, a).attributes + [] == RequestOf(enc, a).attributes;
    assert RequestOf(enc, a).transitions + map[] == RequestOf(enc, a).transitions;
  }

  /**
   * The `attributes` list holds the entries of the visits in exactly the
   * order `accept` issued them: nothing is merged, dropped or reordered.
   */
  lemma {:induction false} AttributesFollowVisits(enc: Encoders, vs: seq<Visit>)
    ensures RequestOf(enc, vs).attributes == AllEntries(enc, vs)
  {
    if vs != [] {
      assert vs == [vs[0]] + vs[1..];
      RequestOfAppend(enc, [vs[0]], vs[1..]);
      SingleVisit(enc, vs[0]);
      AttributesFollowVisits(enc, vs[1..]);
    }
  }

  /**
   * `transitions` has a key exactly when some workflow visit with that
   * attribute id carried a transition, and then holds the transition of the
   * last such visit.
   */
  lemma {:induction false} TransitionsRecordLastDirective(enc: Encoders, vs: seq<Visit>, key: string)
    ensures key in RequestOf(enc, vs).transitions <==>
      exists i :: 0 <= i < |vs| && SetsTransition(vs[i], key)
    ensures key in RequestOf(enc, vs).transitions ==>
      exists i :: 0 <= i < |vs| && SetsTransition(vs[i], key) &&
        RequestOf(enc, vs).transitions[key] == TransitionInput(vs[i].transition.value.id) &&
        forall j :: i < j < |vs| ==> !SetsTransition(vs[j], key)
  {
    if vs != [] {
      var n := |vs| - 1;
      var prefix := vs[..n];
      TransitionsRecordLastDirective(enc, prefix, key);
      assert forall i :: 0 <= i < n ==> prefix[i] == vs[i];
      if SetsTransition(vs[n], key) {
        assert RequestOf(enc, vs).transitions[key] == TransitionInput(vs[n].transition.value.id);
      } else {
        assert RequestOf(enc, vs).transitions == RequestOf(enc, prefix).transitions ||
          (vs[n].VisitWorkflow? && vs[n].transition.Some? && vs[n].attributeId != key);
        if key in RequestOf(enc, vs).transitions {
          assert key in RequestOf(enc, prefix).transitions;
          var i :| 0 <= i < n && SetsTransition(prefix[i], key) &&
            RequestOf(enc, prefix).transitions[key] == TransitionInput(prefix[i].transition.value.id) &&
            forall j :: i < j < n ==> !SetsTransition(prefix[j], key);
          assert SetsTransition(vs[i], key);
        }
      }
    }
  }

  /** Visiting one more attribute applies that visit's callback to the request so far. */
  lemma RequestOfSnoc(enc: Encoders, a: seq<Visit>, v: Visit)
    ensures RequestOf(enc, a + [v]) == Step(enc, RequestOf(enc, a), v)
  {
  }

  /**
   * A non-workflow visit: with `values` undefined it changes nothing; otherwise
   * it appends exactly one entry, under its own attribute id, holding the
   * encoded values, and leaves the transitions alone.
   */
  lemma ValueVisitEffect(enc: Encoders, a: seq<Visit>, v: Visit)
    requires !v.VisitWorkflow?
    ensures IsAbsent(v) ==> RequestOf(enc, a + [v]) == RequestOf(enc, a)
    ensures !IsAbsent(v) ==>
      RequestOf(enc, a + [v]).attributes ==
      RequestOf(enc, a).attributes + [AttributeInput(v.attributeId, EncodedValues(enc, v))]
    ensures RequestOf(enc, a + [v]).transitions == RequestOf(enc, a).transitions
  {
    RequestOfSnoc(enc, a, v);
  }

  /**
   * The workflow callback's decision table: the value comes from the state
   * when there is one, else from the transition's destination; a transition
   * always records its directive under the attribute id, replacing any
   * earlier one, and touches no other key.
   */
  lemma WorkflowVisitEffect(enc: Encoders, a: seq<Visit>, v: Visit)
    requires v.VisitWorkflow?
    ensures v.state.None? && v.transition.None? ==> RequestOf(enc, a + [v]) == RequestOf(enc, a)
    ensures v.state.Some? ==>
      RequestOf(enc, a + [v]).attributes ==
      RequestOf(enc, a).attributes + [AttributeInput(v.attributeId, [v.state.value.id])]
    ensures v.state.None? && v.transition.Some? ==>
      RequestOf(enc, a + [v]).attributes ==
      RequestOf(enc, a).attributes + [AttributeInput(v.attributeId, [v.transition.value.to.id])]
    ensures v.transition.Some? ==>
      RequestOf(enc, a + [v]).transitions ==
      RequestOf(enc, a).transitions[v.attributeId := TransitionInput(v.transition.value.id)]
    ensures v.transition.None? ==> RequestOf(enc, a + [v]).transitions == RequestOf(enc, a).transitions
  {
    RequestOfSnoc(enc, a, v);
  }

  /**
   * The visitor `createRequestObject` hands to the object: the request's
   * `attributes` list and `transitions` map, which its callbacks extend.
   */
  class RequestVisitor {
    var attributes: seq<AttributeInput>
    var transitions: map<string, TransitionInput>

    /** The request body as the visitor holds it. */
    function Data(): ObjectData
      reads this
    {
      ObjectData(None, attributes, transitions)
    }

    constructor ()
      ensures Data() == EmptyRequest
    {
      attributes := [];
      transitions := map[];
    }

    /**
     * The thirteen non-workflow callbacks, after their `values.map(...)`:
     * skip `undefined`, otherwise push one entry.
     */
    method VisitValues(attributeId: string, values: Option<seq<string>>)
      modifies this
      ensures values.None? ==> attributes == old(attributes)
      ensures values.Some? ==> attributes == old(attributes) + [AttributeInput(attributeId, values.value)]
      ensures transitions == old(transitions)
    {
      if values.None? {
        return;
      }
      attributes := attributes + [AttributeInput(attributeId, values.value)];
    }

    /** The workflow callback: a value from the state or the transition's target, plus a directive. */
    method VisitWorkflow(attributeId: string, state: Option<WorkflowState>, transition: Option<WorkflowTransition>)
      modifies this
      ensures state.None? && transition.None? ==> attributes == old(attributes)
      ensures state.Some? ==> attributes == old(attributes) + [AttributeInput(attributeId, [state.value.id])]
      ensures state.None? && transition.Some? ==>
        attributes == old(attributes) + [AttributeInput(attributeId, [transition.value.to.id])]
      ensures transition.Some? ==>
        transitions == old(transitions)[attributeId := TransitionInput(transition.value.id)]
      ensures transition.None? ==> transitions == old(transitions)
    {
      if state.None? && transition.None? {
        return;
      }
      if state.Some? {
        attributes := attributes + [AttributeInput(attributeId, [state.value.id])];
      } else if transition.Some? {
        attributes := attributes + [AttributeInput(attributeId, [transition.value.to.id])];
      }
      if transition.Some? {
        transitions := transitions[attributeId := TransitionInput(transition.value.id)];
      }
    }

    /** Dispatch of one visit to the callback of its kind. */
    method Dispatch(enc: Encoders, v: Visit)
      modifies this
      ensures Data() == Step(enc, old(Data()), v)
    {
      if v.VisitWorkflow? {
        VisitWorkflow(v.attributeId, v.state, v.transition);
      } else {
        VisitValues(v.attributeId, if IsAbsent(v) then None else Some(EncodedValues(enc, v)));
      }
    }
  }

  /** `createRequestObject`: run the object's `accept` against a fresh visitor. */
  method CreateRequestObject(enc: Encoders, obj: StarhiveObject) returns (data: ObjectData)
    ensures data == RequestOf(enc, obj.visits)
  {
    var visitor := new RequestVisitor();
    var i := 0;
    while i < |obj.visits|
      invariant 0 <= i <= |obj.visits|
      invariant visitor.Data() == RequestOf(enc, obj.visits[..i])
    {
      assert obj.visits[..i + 1] == obj.visits[..i] + [obj.visits[i]];
      RequestOfSnoc(enc, obj.visits[..i], obj.visits[i]);
      visitor.Dispatch(enc, obj.visits[i]);
      i := i + 1;
    }
    assert obj.visits[..i] == obj.visits;
    data := visitor.Data();
  }
}
