/**
  The order catalog and the ServiceRequest builders of
  src/components/EHR/order-factory.ts: two fixed tables from a human-readable
  key to a coding triple (LOINC for tests, SNOMED CT for treatments), builders
  that turn a key and two ids into an order or throw on an unknown key, and
  the key lists in definition order.
*/
module OrderFactory {
  import opened Wrappers
  import opened Fhir

  const Loinc := "http://loinc.org"
  const SnomedCt := "http://snomed.info/sct"
  const ServiceCategory := "http://terminology.hl7.org/CodeSystem/service-category"

  /** One property of a lookup table: a key and the coding it maps to. */
  datatype Entry = Entry(key: string, coding: Coding)

  /** The keys of a table, in definition order (what `Object.keys` returns). */
  function Keys(table: seq<Entry>): (ks: seq<string>)
    ensures |ks| == |table|
    ensures forall i :: 0 <= i < |table| ==> ks[i] == table[i].key
  {
    if table == [] then [] else [table[0].key] + Keys(table[1..])
  }

  /** No key is defined twice, so every key names exactly one coding. */
  ghost predicate DistinctKeys(table: seq<Entry>) {
    forall i, j :: 0 <= i < j < |table| ==> table[i].key != table[j].key
  }

  /** Looks a key up among the table's own properties. */
  function Find(table: seq<Entry>, key: string): (r: Option<Coding>)
    ensures r.None? <==> key !in Keys(table)
    ensures r.Some? ==> Entry(key, r.value) in table
  {
    if table == [] then None
    else if table[0].key == key then Some(table[0].coding)
    else Find(table[1..], key)
  }

  /**
    In a table with distinct keys, looking up the key of an entry yields that
    entry's coding: the found entry has the same key, so it is that entry.
  */
  lemma FindEntry(table: seq<Entry>, i: nat)
    requires DistinctKeys(table)
    requires i < |table|
    ensures Find(table, table[i].key) == Some(table[i].coding)
  {
  }

  /** The LOINC table for tests (lines 4-30). */
  function TestCodes(): (t: seq<Entry>)
    ensures DistinctKeys(t)
    ensures forall i :: 0 <= i < |t| ==> t[i].coding.system == Loinc && t[i].coding.display.Some?
  {
    [ Entry("Blood Test", Coding(Loinc, "33747-0", Some("General blood panel"))),
      Entry("X-Ray", Coding(Loinc, "36643-5", Some("X-ray study"))),
      Entry("MRI Scan", Coding(Loinc, "24627-2", Some("Magnetic resonance imaging study"))),
      Entry("CT Scan", Coding(Loinc, "24604-1", Some("Computed tomography study"))),
      Entry("Urine Test", Coding(Loinc, "24357-6", Some("Urinalysis complete panel"))) ]
  }

  /** The SNOMED CT table for treatments (lines 33-59). */
  function TreatmentCodes(): (t: seq<Entry>)
    ensures DistinctKeys(t)
    ensures forall i :: 0 <= i < |t| ==> t[i].coding.system == SnomedCt && t[i].coding.display.Some?
  {
    [ Entry("Physical Therapy", Coding(SnomedCt, "108369006", Some("Physical therapy"))),
      Entry("Chemotherapy", Coding(SnomedCt, "367336001", Some("Chemotherapy"))),
      Entry("Radiation Therapy", Coding(SnomedCt, "108290001", Some("Radiation therapy"))),
      Entry("Surgery", Coding(SnomedCt, "387713003", Some("Surgical procedure"))),
      Entry("Medication", Coding(SnomedCt, "432102000", Some("Administration of substance"))) ]
  }

  /** `availableTests`: the test keys in definition order. */
  function AvailableTests(): (ks: seq<string>)
    ensures ks == ["Blood Test", "X-Ray", "MRI Scan", "CT Scan", "Urine Test"]
  {
    Keys(TestCodes())
  }

  /** `availableTreatments`: the treatment keys in definition order. */
  function AvailableTreatments(): (ks: seq<string>)
    ensures ks == ["Physical Therapy", "Chemotherapy", "Radiation Therapy", "Surgery", "Medication"]
  {
    Keys(TreatmentCodes())
  }

  /** No key is both a test and a treatment. */
  lemma CatalogsDisjoint()
    ensures forall k :: k in AvailableTests() ==> k !in AvailableTreatments()
  {
  }

  /** The category element both builders attach, e.g. `diagnostic` / `Diagnostic`. */
  function ServiceCategoryConcept(code: string, display: string): CodeableConcept {
    CodeableConcept([Coding(ServiceCategory, code, Some(display))], None)
  }

  /**
    The order both builders return once the key has been found: an active
    ServiceRequest in the given category, coded by the catalog entry and
    named by the key, referencing the patient and the practitioner, with the
    given reason text.
  */
  function CatalogOrder(category: CodeableConcept, reason: string, name: string, coding: Coding,
                        patientId: string, providerId: string): Resource
  {
    ServiceRequest(
      status := "active",
      intent := "order",
      category := [category],
      subject := ReferenceTo("Patient", patientId),
      requester := ReferenceTo("Practitioner", providerId),
      code := CodeableConcept([coding], Some(name)),
      reasonCode := [CodeableConcept([], Some(reason))])
  }

  /** `createTestOrder`: a diagnostic order for a catalog test, or `Unknown test: <name>`. */
  function CreateTestOrder(testName: string, patientId: string, providerId: string): (r: Result<Resource>)
    ensures r.Failure? <==> testName !in AvailableTests()
    ensures r.Failure? ==> r.error == "Unknown test: " + testName
    ensures r.Success? ==>
      && r.value.ServiceRequest?
      && r.value.ResourceType() == "ServiceRequest"
      && r.value.status == "active" && r.value.intent == "order"
      && r.value.category == [CodeableConcept([Coding(ServiceCategory, "diagnostic", Some("Diagnostic"))], None)]
      && r.value.subject.reference == "Patient/" + patientId
      && r.value.requester.reference == "Practitioner/" + providerId
      && r.value.code.text == Some(testName)
      && |r.value.code.coding| == 1
      && Entry(testName, r.value.code.coding[0]) in TestCodes()
      && r.value.reasonCode == [CodeableConcept([], Some("Ordered " + testName + " for diagnostic purposes"))]
  {
    match Find(TestCodes(), testName)
    case None => Failure("Unknown test: " + testName)
    case Some(testCode) =>
      Success(CatalogOrder(ServiceCategoryConcept("diagnostic", "Diagnostic"),
                           "Ordered " + testName + " for diagnostic purposes",
                           testName, testCode, patientId, providerId))
  }

  /** `createTreatmentOrder`: a therapeutic order for a catalog treatment, or `Unknown treatment: <name>`. */
  function CreateTreatmentOrder(treatmentName: string, patientId: string, providerId: string): (r: Result<Resource>)
    ensures r.Failure? <==> treatmentName !in AvailableTreatments()
    ensures r.Failure? ==> r.error == "Unknown treatment: " + treatmentName
    ensures r.Success? ==>
      && r.value.ServiceRequest?
      && r.value.ResourceType() == "ServiceRequest"
      && r.value.status == "active" && r.value.intent == "order"
      && r.value.category == [CodeableConcept([Coding(ServiceCategory, "therapeutic", Some("Therapeutic"))], None)]
      && r.value.subject.reference == "Patient/" + patientId
      && r.value.requester.reference == "Practitioner/" + providerId
      && r.value.code.text == Some(treatmentName)
      && |r.value.code.coding| == 1
      && Entry(treatmentName, r.value.code.coding[0]) in TreatmentCodes()
      && r.value.reasonCode == [CodeableConcept([], Some("Ordered " + treatmentName + " for therapeutic purposes"))]
  {
    match Find(TreatmentCodes(), treatmentName)
    case None => Failure("Unknown treatment: " + treatmentName)
    case Some(treatmentCode) =>
      Success(CatalogOrder(ServiceCategoryConcept("therapeutic", "Therapeutic"),
                           "Ordered " + treatmentName + " for therapeutic purposes",
                           treatmentName, treatmentCode, patientId, providerId))
  }

  /**
    `createOrder`: the type `'test'` selects the test catalog; any other
    type (the declared alternative is `'treatment'`) selects the treatment
    catalog.
  */
  function CreateOrder(orderType: string, itemName: string, patientId: string, providerId: string): (r: Result<Resource>)
    ensures orderType == "test" ==> r == CreateTestOrder(itemName, patientId, providerId)
    ensures orderType != "test" ==> r == CreateTreatmentOrder(itemName, patientId, providerId)
    ensures r.Success? <==> itemName in (if orderType == "test" then AvailableTests() else AvailableTreatments())
  {
    if orderType == "test" then CreateTestOrder(itemName, patientId, providerId)
    else CreateTreatmentOrder(itemName, patientId, providerId)
  }

  /** A test order carries exactly the catalog coding of its key, for every key of the catalog. */
  lemma TestOrderCoding(i: nat, patientId: string, providerId: string)
    requires i < |TestCodes()|
    ensures CreateTestOrder(TestCodes()[i].key, patientId, providerId).Success?
    ensures CreateTestOrder(TestCodes()[i].key, patientId, providerId).value.code.coding == [TestCodes()[i].coding]
  {
    FindEntry(TestCodes(), i);
  }

  /** A treatment order carries exactly the catalog coding of its key, for every key of the catalog. */
  lemma TreatmentOrderCoding(i: nat, patientId: string, providerId: string)
    requires i < |TreatmentCodes()|
    ensures CreateTreatmentOrder(TreatmentCodes()[i].key, patientId, providerId).Success?
    ensures CreateTreatmentOrder(TreatmentCodes()[i].key, patientId, providerId).value.code.coding == [TreatmentCodes()[i].coding]
  {
    FindEntry(TreatmentCodes(), i);
  }

  /**
    An order names its inputs: two successful orders of the same type are
    equal only when they were built from the same key, patient id and
    provider id, and the ids can be read back from the references.
  */
  lemma OrderDeterminesInputs(orderType: string, name1: string, patient1: string, provider1: string,
                              name2: string, patient2: string, provider2: string)
    requires CreateOrder(orderType, name1, patient1, provider1).Success?
    ensures ReferencedId("Patient", CreateOrder(orderType, name1, patient1, provider1).value.subject) == Some(patient1)
    ensures ReferencedId("Practitioner", CreateOrder(orderType, name1, patient1, provider1).value.requester) == Some(provider1)
    ensures CreateOrder(orderType, name1, patient1, provider1) == CreateOrder(orderType, name2, patient2, provider2)
            <==> name1 == name2 && patient1 == patient2 && provider1 == provider2
  {
    ReferenceRoundTrip("Patient", patient1);
    ReferenceRoundTrip("Practitioner", provider1);
    ReferenceToInjective("Patient", patient1, patient2);
    ReferenceToInjective("Practitioner", provider1, provider2);
  }

  /** The worked example: a blood test for patient 123 ordered by practitioner 456. */
  lemma BloodTestExample()
    ensures CreateOrder("test", "Blood Test", "123", "456").Success?
    ensures CreateOrder("test", "Blood Test", "123", "456").value.code.coding
            == [Coding("http://loinc.org", "33747-0", Some("General blood panel"))]
    ensures CreateOrder("test", "Blood Test", "123", "456").value.subject.reference == "Patient/" + "123"
    ensures CreateOrder("test", "Blood Test", "123", "456").value.requester.reference == "Practitioner/" + "456"
  {
    TestOrderCoding(0, "123", "456");
  }

  /** A name outside the test catalog is rejected with its own name in the message. */
  lemma UnknownTestExample()
    ensures CreateOrder("test", "Unknown Thing", "123", "456") == Failure("Unknown test: " + "Unknown Thing")
  {
    assert "Unknown Thing" !in AvailableTests();
  }

  /** Empty ids are accepted: the references are then the bare `Patient/` and `Practitioner/`. */
  lemma EmptyIdsAccepted()
    ensures CreateOrder("treatment", "Surgery", "", "456").Success?
    ensures CreateOrder("treatment", "Surgery", "", "456").value.subject.reference == "Patient/"
  {
  }

  // ---- The lookup guard as written ----

  /**
    The properties every plain JavaScript object inherits from
    `Object.prototype`. Reading one of them off a lookup table yields a
    function (for `__proto__`, the prototype object), which is truthy.
  */
  function InheritedNames(): set<string> {
    { "constructor", "hasOwnProperty", "isPrototypeOf", "propertyIsEnumerable",
      "toLocaleString", "toString", "valueOf", "__proto__",
      "__defineGetter__", "__defineSetter__", "__lookupGetter__", "__lookupSetter__" }
  }

  /** What `table[key]` evaluates to on a plain object literal. */
  datatype Property = Own(coding: Coding) | Inherited(name: string) | Undefined

  function PropertyAsWritten(table: seq<Entry>, key: string): (p: Property)
    ensures p.Own? <==> key in Keys(table)
    ensures p.Undefined? <==> key !in Keys(table) && key !in InheritedNames()
  {
    match Find(table, key)
    case Some(c) => Own(c)
    case None => if key in InheritedNames() then Inherited(key) else Undefined
  }

  /** The guard `if (!testCode) throw ...` as written: it throws only when the property is undefined. */
  predicate GuardRejectsAsWritten(table: seq<Entry>, key: string): (r: bool)
    ensures r <==> key !in Keys(table) && key !in InheritedNames()
  {
    PropertyAsWritten(table, key).Undefined?
  }

  /**
    The guard as written lets an inherited name through: `toString` is not a
    test, yet `createTestOrder("toString", ...)` does not throw and builds an
    order whose coding is a function. `CreateTestOrder` above rejects it.
  */
  lemma InheritedNameEscapesGuard()
    ensures "toString" !in AvailableTests()
    ensures !GuardRejectsAsWritten(TestCodes(), "toString")
    ensures !GuardRejectsAsWritten(TreatmentCodes(), "constructor")
    ensures CreateTestOrder("toString", "123", "456") == Failure("Unknown test: toString")
  {
  }

  /** The corrected builders reject exactly the names outside the catalog, inherited names included. */
  lemma CorrectedGuardRejectsExactlyUnknown(orderType: string, name: string, patientId: string, providerId: string)
    ensures CreateOrder(orderType, name, patientId, providerId).Failure?
            <==> name !in Keys(if orderType == "test" then TestCodes() else TreatmentCodes())
    ensures CreateOrder(orderType, name, patientId, providerId).Success?
            ==> !GuardRejectsAsWritten(if orderType == "test" then TestCodes() else TreatmentCodes(), name)
  {
  }
}
