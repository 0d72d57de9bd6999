/** `getTreatmentOrder` of src/components/EHR/treatment-order.ts: a fixed physical-therapy order. */
module TreatmentOrder {
  import opened Wrappers
  import opened Fhir
  import OrderFactory

  /** The physical-therapy ServiceRequest for one patient, requested by one practitioner. */
  function GetTreatmentOrder(patientId: string, providerId: string): (r: Resource)
    ensures r.ServiceRequest? && r.ResourceType() == "ServiceRequest"
    ensures r.status == "active" && r.intent == "order"
    ensures r.category == []
    ensures r.subject.reference == "Patient/" + patientId
    ensures r.requester.reference == "Practitioner/" + providerId
    ensures r.code.coding == [Coding("http://snomed.info/sct", "108369006", Some("Physical therapy"))]
    ensures r.code.text.None?
    ensures |r.reasonCode| == 1
    ensures r.reasonCode[0].coding == [Coding(ConditionCode, "problem", None)]
    ensures r.reasonCode[0].text == Some("Chronic back pain")
  {
    ServiceRequest(
      status := "active",
      intent := "order",
      category := [],
      subject := ReferenceTo("Patient", patientId),
      requester := ReferenceTo("Practitioner", providerId),
      code := CodeableConcept([Coding("http://snomed.info/sct", "108369006", Some("Physical therapy"))], None),
      reasonCode := [CodeableConcept([Coding(ConditionCode, "problem", None)], Some("Chronic back pain"))])
  }

  /**
    The fixed treatment order codes the same concept as the catalog's
    "Physical Therapy" entry and references the same parties as the
    catalog-built order; it differs in category, code text and reason.
  */
  lemma TreatmentOrderMatchesCatalog(patientId: string, providerId: string)
    ensures OrderFactory.CreateTreatmentOrder("Physical Therapy", patientId, providerId).Success?
    ensures var catalog := OrderFactory.CreateTreatmentOrder("Physical Therapy", patientId, providerId).value;
            var fixed := GetTreatmentOrder(patientId, providerId);
            && fixed.code.coding == catalog.code.coding
            && fixed.subject == catalog.subject
            && fixed.requester == catalog.requester
            && fixed.category != catalog.category
            && fixed.reasonCode != catalog.reasonCode
  {
    OrderFactory.FindEntry(OrderFactory.TreatmentCodes(), 0);
  }
}
