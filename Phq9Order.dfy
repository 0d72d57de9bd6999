/** `getPHQ9Order` of src/components/EHR/phq9-order.ts: an order for a PHQ-9 depression screening. */
module Phq9Order {
  import opened Wrappers
  import opened Fhir

  /** The PHQ-9 ServiceRequest for one patient, requested by one practitioner. */
  function GetPHQ9Order(patientId: string, providerId: string): (r: Resource)
    ensures r.ServiceRequest? && r.ResourceType() == "ServiceRequest"
    ensures r.status == "active" && r.intent == "order"
    ensures r.category == []
    ensures r.subject.reference == "Patient/" + patientId
    ensures r.requester.reference == "Practitioner/" + providerId
    ensures r.code.coding == [Coding("http://loinc.org", "89579-2", Some("Patient Health Questionnaire-9"))]
    ensures r.code.text.None?
    ensures r.reasonCode == [CodeableConcept([Coding(ConditionCode, "problem", Some("Depression"))],
                                             Some("Suspected depression"))]
  {
    ServiceRequest(
      status := "active",
      intent := "order",
      category := [],
      subject := ReferenceTo("Patient", patientId),
      requester := ReferenceTo("Practitioner", providerId),
      code := CodeableConcept([Coding("http://loinc.org", "89579-2", Some("Patient Health Questionnaire-9"))], None),
      reasonCode := [CodeableConcept([Coding(ConditionCode, "problem", Some("Depression"))], Some("Suspected depression"))])
  }

  /**
    Two PHQ-9 orders differ only in their subject and requester references,
    and they differ whenever the ids do.
  */
  lemma Phq9OrdersDifferOnlyInReferences(patient1: string, provider1: string, patient2: string, provider2: string)
    ensures var first := GetPHQ9Order(patient1, provider1);
            first.ServiceRequest? &&
            first.(subject := ReferenceTo("Patient", patient2), requester := ReferenceTo("Practitioner", provider2))
            == GetPHQ9Order(patient2, provider2)
    ensures GetPHQ9Order(patient1, provider1) == GetPHQ9Order(patient2, provider2)
            <==> patient1 == patient2 && provider1 == provider2
  {
    ReferenceToInjective("Patient", patient1, patient2);
    ReferenceToInjective("Practitioner", provider1, provider2);
  }
}
