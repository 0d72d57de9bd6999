/**
  The slice of FHIR resources that the EHR frame builds: ServiceRequest and
  QuestionnaireResponse, with the Coding, CodeableConcept and Reference
  elements they are made of. An absent JSON array is modelled as the empty
  sequence; an absent string field (a coding's `display`, a concept's `text`)
  as `None`.
*/
module Fhir {
  import opened Wrappers

  /** The code system of the condition codes (`problem`) the fixed orders give as their reason. */
  const ConditionCode := "http://terminology.hl7.org/CodeSystem/condition-code"

  /** A (terminology system, code, display text) triple. */
  datatype Coding = Coding(system: string, code: string, display: Option<string>)

  datatype CodeableConcept = CodeableConcept(coding: seq<Coding>, text: Option<string>)

  datatype Reference = Reference(reference: string)

  /** One answer of a questionnaire item; only integer answers occur here. */
  datatype Answer = Answer(valueInteger: int)

  datatype Item = Item(linkId: string, answer: seq<Answer>)

  datatype Resource =
    | ServiceRequest(
        status: string,
        intent: string,
        category: seq<CodeableConcept>,
        subject: Reference,
        requester: Reference,
        code: CodeableConcept,
        reasonCode: seq<CodeableConcept>)
    | QuestionnaireResponse(
        status: string,
        subject: Reference,
        questionnaire: string,
        item: seq<Item>)
  {
    /** The JSON `resourceType` discriminator. */
    function ResourceType(): (t: string)
      ensures t == "ServiceRequest" <==> ServiceRequest?
      ensures t == "QuestionnaireResponse" <==> QuestionnaireResponse?
    {
      match this
      case ServiceRequest(_, _, _, _, _, _, _) => "ServiceRequest"
      case QuestionnaireResponse(_, _, _, _) => "QuestionnaireResponse"
    }
  }

  /** A relative literal reference `<resourceType>/<id>`, as the template `${type}/${id}` builds it. */
  function ReferenceTo(resourceType: string, id: string): (r: Reference)
    ensures |r.reference| == |resourceType| + 1 + |id|
    ensures r.reference[..|resourceType|] == resourceType
    ensures r.reference[|resourceType|] == '/'
    ensures r.reference[|resourceType| + 1..] == id
  {
    Reference(resourceType + "/" + id)
  }

  /** The id a relative reference names, when it names a resource of the given type. */
  function ReferencedId(resourceType: string, r: Reference): (id: Option<string>)
    ensures id.Some? ==> |r.reference| == |resourceType| + 1 + |id.value|
  {
    var n := |resourceType|;
    if n < |r.reference| && r.reference[..n] == resourceType && r.reference[n] == '/'
    then Some(r.reference[n + 1..])
    else None
  }

  /** Reading the id back out of a reference built by `ReferenceTo` gives the id that went in. */
  lemma ReferenceRoundTrip(resourceType: string, id: string)
    ensures ReferencedId(resourceType, ReferenceTo(resourceType, id)) == Some(id)
  {
  }

  /** Every reference `ReferencedId` reads is the one `ReferenceTo` builds from its parts. */
  lemma ReferenceRoundTripBack(resourceType: string, r: Reference)
    requires ReferencedId(resourceType, r).Some?
    ensures ReferenceTo(resourceType, ReferencedId(resourceType, r).value) == r
  {
    var n := |resourceType|;
    var s := r.reference;
    assert s == s[..n] + [s[n]] + s[n + 1..];
  }

  /** Two references to the same resource type are equal exactly when their ids are. */
  lemma ReferenceToInjective(resourceType: string, id1: string, id2: string)
    ensures ReferenceTo(resourceType, id1) == ReferenceTo(resourceType, id2) <==> id1 == id2
  {
    if ReferenceTo(resourceType, id1) == ReferenceTo(resourceType, id2) {
      ReferenceRoundTrip(resourceType, id1);
      ReferenceRoundTrip(resourceType, id2);
    }
  }
}
