/** `getPHQ9Response` of src/components/EHR/phq9-response.ts: a fixed, partly filled PHQ-9 answer set. */
module Phq9Response {
  import opened Fhir
  import Phq9Order

  /** The completed PHQ-9 QuestionnaireResponse for one patient. */
  function GetPHQ9Response(patientId: string): (r: Resource)
    ensures r.QuestionnaireResponse? && r.ResourceType() == "QuestionnaireResponse"
    ensures r.status == "completed"
    ensures r.subject.reference == patientId
    ensures r.questionnaire == "http://example.org/questionnaire/phq-9"
    ensures |r.item| == 2
    ensures r.item[0].linkId == "phq1" && r.item[1].linkId == "phq2"
    ensures forall k :: 0 <= k < |r.item| ==> |r.item[k].answer| == 1
    ensures r.item[0].answer[0].valueInteger == 2 && r.item[1].answer[0].valueInteger == 1
  {
    QuestionnaireResponse(
      status := "completed",
      subject := Reference(patientId),
      questionnaire := "http://example.org/questionnaire/phq-9",
      item := [Item("phq1", [Answer(2)]), Item("phq2", [Answer(1)])])
  }

  /**
    The response references the patient by the bare id, whereas the PHQ-9
    order references `Patient/<id>`: the two subjects never coincide.
  */
  lemma ResponseSubjectIsBareId(patientId: string, providerId: string)
    ensures Phq9Order.GetPHQ9Order(patientId, providerId).subject.reference
            == "Patient/" + GetPHQ9Response(patientId).subject.reference
    ensures Phq9Order.GetPHQ9Order(patientId, providerId).subject != GetPHQ9Response(patientId).subject
  {
    assert |Phq9Order.GetPHQ9Order(patientId, providerId).subject.reference| > |patientId|;
  }
}
