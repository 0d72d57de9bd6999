# EHR frame: order catalog, FHIR order builders and frame state

A Dafny model of the order-placing core of a simulated Electronic Health
Record frame that hosts a SMART-on-FHIR application in an iframe:

- **Order catalog** (`src/components/EHR/order-factory.ts`): two fixed,
  ordered lookup tables from a human-readable key to a
  (system, code, display) coding — LOINC for tests, SNOMED CT for
  treatments — the key lists `availableTests` / `availableTreatments`, and
  the builders `createTestOrder`, `createTreatmentOrder` and `createOrder`
  that turn a key plus a patient id and a provider id into a FHIR
  ServiceRequest, or throw `Unknown test: <name>` / `Unknown treatment: <name>`.
- **Fixed-resource builders** (`phq9-order.ts`, `treatment-order.ts`,
  `phq9-response.ts`): the PHQ-9 screening order, the physical-therapy order
  and a partly filled PHQ-9 QuestionnaireResponse.
- **Frame state** (`src/components/EHR/index.tsx`): the class `EhrFrame`
  holds `user`, `patient`, `encounterID` and the selected tests and
  treatments; `ToggleSelection` is the checkbox handler, `OnMessage` the
  origin-filtered `postMessage` dispatch; the status-bar `"Unknown"`
  fallbacks and the ids passed to `getPHQ9Order` are functions of that state.

Files: `Wrappers.dfy` (Option, Result), `Fhir.dfy` (the FHIR element
datatypes and relative references), `OrderFactory.dfy`, `Phq9Order.dfy`,
`TreatmentOrder.dfy`, `Phq9Response.dfy`, `Ehr.dfy`.

The builders are total or throwing functions; a thrown `Error` is a
`Failure` carrying its message. A JavaScript object literal keeps its string
keys in insertion order, so each table is a sequence of entries with
distinct keys, and `Object.keys` is the sequence of their keys.

The builders accept empty ids and produce `Patient/` (`EmptyIdsAccepted`).
The dialog's submit button (`src/components/EHR/index.tsx:200`) places only
the PHQ-9 order; the selection is never turned into orders.

## Model

| member | source | states |
|---|---|---|
| Fhir.Resource.ResourceType | src/components/EHR/phq9-response.ts:5 | the `resourceType` string is `ServiceRequest` exactly for service requests and `QuestionnaireResponse` exactly for questionnaire responses |
| Fhir.ReferenceTo | src/components/EHR/order-factory.ts:79-84 | a reference `<type>/${id}` consists of the type name, one `/`, then the id verbatim |
| Fhir.ReferenceRoundTrip | src/components/EHR/order-factory.ts:79-84 | the id can be read back out of every reference the builders make, empty id included |
| Fhir.ReferenceRoundTripBack | src/components/EHR/order-factory.ts:79-84 | every reference from which an id of the type can be read is the one built from that id |
| Fhir.ReferenceToInjective | src/components/EHR/order-factory.ts:79-84 | two references to one resource type are equal if and only if their ids are |
| OrderFactory.Keys | src/components/EHR/order-factory.ts:130-131 | `Object.keys`: one key per entry, in definition order |
| OrderFactory.Find | src/components/EHR/order-factory.ts:62-66 | the lookup fails exactly for names that are not keys of the table; a found coding is the coding of an entry with that key |
| OrderFactory.FindEntry | src/components/EHR/order-factory.ts:62 | in a table with distinct keys, looking up an entry's key yields that entry's coding |
| OrderFactory.TestCodes | src/components/EHR/order-factory.ts:4-30 | the test table has distinct keys and every entry is a LOINC coding with a display |
| OrderFactory.TreatmentCodes | src/components/EHR/order-factory.ts:33-59 | the treatment table has distinct keys and every entry is a SNOMED CT coding with a display |
| OrderFactory.AvailableTests | src/components/EHR/order-factory.ts:130 | exactly `Blood Test, X-Ray, MRI Scan, CT Scan, Urine Test`, in that order |
| OrderFactory.AvailableTreatments | src/components/EHR/order-factory.ts:131 | exactly `Physical Therapy, Chemotherapy, Radiation Therapy, Surgery, Medication`, in that order |
| OrderFactory.CatalogsDisjoint | src/components/EHR/order-factory.ts:4-59 | no key is both a test and a treatment |
| OrderFactory.CreateTestOrder | src/components/EHR/order-factory.ts:61-93 | throws `Unknown test: <name>` if and only if the name is not a test key; otherwise an active `order` ServiceRequest in category `diagnostic`, referencing `Patient/<patientId>` and `Practitioner/<providerId>`, coded by the name's single catalog coding, with text the name and reason `Ordered <name> for diagnostic purposes` |
| OrderFactory.CreateTreatmentOrder | src/components/EHR/order-factory.ts:95-127 | throws `Unknown treatment: <name>` if and only if the name is not a treatment key; otherwise the same shape in category `therapeutic` with reason `Ordered <name> for therapeutic purposes` |
| OrderFactory.CreateOrder | src/components/EHR/order-factory.ts:133-139 | type `test` builds a test order, every other type a treatment order; it succeeds exactly for keys of the selected catalog |
| OrderFactory.TestOrderCoding | src/components/EHR/order-factory.ts:61-88 | for every test key, the order succeeds and its coding is exactly that key's catalog triple |
| OrderFactory.TreatmentOrderCoding | src/components/EHR/order-factory.ts:95-122 | for every treatment key, the order succeeds and its coding is exactly that key's catalog triple |
| OrderFactory.OrderDeterminesInputs | src/components/EHR/order-factory.ts:79-88 | the patient and provider ids can be read back from an order's references, and two orders are equal if and only if key, patient id and provider id are |
| OrderFactory.BloodTestExample | src/components/EHR/order-factory.ts:5-9 | a blood test for patient 123 by practitioner 456 is coded `(http://loinc.org, 33747-0, General blood panel)` and references `Patient/123` and `Practitioner/456` |
| OrderFactory.UnknownTestExample | src/components/EHR/order-factory.ts:64-66 | `Unknown Thing` as a test throws `Unknown test: Unknown Thing` |
| OrderFactory.EmptyIdsAccepted | src/components/EHR/order-factory.ts:113-118 | an empty patient id is accepted and gives the reference `Patient/` |
| OrderFactory.PropertyAsWritten | src/components/EHR/order-factory.ts:62 | `table[key]` is an own coding exactly for catalog keys and undefined exactly for names that are neither keys nor inherited `Object.prototype` members |
| OrderFactory.GuardRejectsAsWritten | src/components/EHR/order-factory.ts:64-66 | the truthiness guard as written (also line 98 for treatments) throws exactly for names that are neither catalog keys nor inherited `Object.prototype` members |
| OrderFactory.InheritedNameEscapesGuard | src/components/EHR/order-factory.ts:64-66 | as written, the guard does not throw for `toString` (tests) or `constructor` (treatments), though neither is a catalog key |
| OrderFactory.CorrectedGuardRejectsExactlyUnknown | src/components/EHR/order-factory.ts:96-100 | the modelled builders fail exactly for names outside the selected catalog, and every name they accept passes the guard as written |
| Phq9Order.GetPHQ9Order | src/components/EHR/phq9-order.ts:3-36 | an active `order` ServiceRequest referencing `Patient/<patientId>` and `Practitioner/<providerId>`, coded `(http://loinc.org, 89579-2, Patient Health Questionnaire-9)`, with one reason `(condition-code, problem, Depression)` and text `Suspected depression` |
| Phq9Order.Phq9OrdersDifferOnlyInReferences | src/components/EHR/phq9-order.ts:3-35 | two PHQ-9 orders agree except in subject and requester, and are equal if and only if both ids are |
| TreatmentOrder.GetTreatmentOrder | src/components/EHR/treatment-order.ts:3-34 | an active `order` ServiceRequest referencing `Patient/<patientId>` and `Practitioner/<providerId>`, coded `(http://snomed.info/sct, 108369006, Physical therapy)`, with one reason coded `(condition-code, problem)` without display and text `Chronic back pain` |
| TreatmentOrder.TreatmentOrderMatchesCatalog | src/components/EHR/treatment-order.ts:26-33 | its coding and both references equal those of the catalog's `Physical Therapy` order; category and reason differ |
| Phq9Response.GetPHQ9Response | src/components/EHR/phq9-response.ts:3-30 | a `completed` QuestionnaireResponse for questionnaire `http://example.org/questionnaire/phq-9` whose subject is the patient id verbatim, with items `phq1` then `phq2`, each with one answer, 2 and 1 |
| Phq9Response.ResponseSubjectIsBareId | src/components/EHR/phq9-response.ts:7-9 | the PHQ-9 order's subject is `Patient/` followed by the response's subject, so the two never coincide |
| Ehr.Without | src/components/EHR/index.tsx:39 | the filtered list no longer contains the item |
| Ehr.WithoutCounts | src/components/EHR/index.tsx:39 | filtering removes every occurrence of the item and keeps every other item as often as it occurred |
| Ehr.WithoutAppend | src/components/EHR/index.tsx:39 | filtering commutes with concatenation, so the remaining items keep their relative order |
| Ehr.WithoutAbsent | src/components/EHR/index.tsx:39 | filtering out an item that does not occur leaves the list unchanged |
| Ehr.Toggled | src/components/EHR/index.tsx:37-42 | the item's membership is flipped, every other item keeps its count, an absent item is appended at the end, and a present one is filtered out (so the rest keep their order, by `WithoutAppend`) |
| Ehr.ToggleRemoveKeepsOrder | src/components/EHR/index.tsx:38-39 | toggling an item that occurs once removes it and leaves the items before and after it in order |
| Ehr.ToggleTwiceRestores | src/components/EHR/index.tsx:38-40 | toggling an absent item twice restores the list |
| Ehr.ToggleTwicePresent | src/components/EHR/index.tsx:38-40 | toggling a present item twice leaves the other items in order with the item once at the end |
| Ehr.ToggledKeepsNoDuplicates | src/components/EHR/index.tsx:38-40 | a selection without duplicates stays without duplicates |
| Ehr.Step | src/components/EHR/index.tsx:58-75 | a message from another origin or of an unknown type changes nothing; `setUser`, `setPatient`, `setEncounterID` overwrite exactly their own field with the payload |
| Ehr.RunKeepsUnsetField | src/components/EHR/index.tsx:60-72 | over a run of messages, a field no same-origin message sets keeps its value |
| Ehr.RunLastWriterWins | src/components/EHR/index.tsx:60-72 | over a run of messages, a field holds the payload of the last same-origin message that set it |
| Ehr.ForeignMessagesIgnored | src/components/EHR/index.tsx:59 | any run of messages from other origins leaves the context unchanged |
| Ehr.IdOrUnknown | src/components/EHR/index.tsx:94-95 | the shown id is the id when present (even empty) and `Unknown` when absent |
| Ehr.IdOrEmpty | src/components/EHR/index.tsx:46 | the id passed to the PHQ-9 order is the id when present and empty otherwise |
| Ehr.FallbacksAgreeOnPresentIds | src/components/EHR/index.tsx:94-95 | the status-bar id and the order id agree if and only if an id is present |
| Ehr.SexShown | src/components/EHR/index.tsx:98 | the gender when present and non-empty, otherwise `Unknown`; never empty |
| Ehr.NameShown | src/components/EHR/index.tsx:96 | `humanName` of a truthy value, otherwise `Unknown` |
| Ehr.AgeShown | src/components/EHR/index.tsx:97 | `Unknown` unless a non-empty birth date is present; then `formatAge`, or `Unknown` when that is empty; never empty |
| Ehr.EhrFrame.constructor | src/components/EHR/index.tsx:13-19 | no user, no patient, encounter `Unknown`, empty selections; both shown ids are `Unknown` |
| Ehr.EhrFrame.ToggleSelection | src/components/EHR/index.tsx:36-43 | the named category becomes its toggle, the other category and the context are unchanged, and a duplicate-free category stays duplicate-free |
| Ehr.EhrFrame.OnMessage | src/components/EHR/index.tsx:58-75 | the context becomes `Step` of the old context; a foreign-origin message changes no field; the selection never changes |
| Ehr.EhrFrame.PatientIdShown | src/components/EHR/index.tsx:94 | the patient's id when present (even empty), `Unknown` when absent |
| Ehr.EhrFrame.UserIdShown | src/components/EHR/index.tsx:95 | the user's id when present (even empty), `Unknown` when absent |
| Ehr.EhrFrame.Phq9OrderToSubmit | src/components/EHR/index.tsx:45-46 | the submitted order is exactly the PHQ-9 order for the patient's and user's ids, with `""` for a missing one: it references `Patient/` and `Practitioner/` followed by the ids, or by nothing when an id is missing |

## Findings

| source | as written | input that shows it | evidently intended | confidence | as-written member | corrected member |
|---|---|---|---|---|---|---|
| src/components/EHR/order-factory.ts:62-66 | `testCodes[testName]` on a plain object literal also finds the members every object inherits from `Object.prototype`; they are truthy, so `if (!testCode)` does not throw | `createTestOrder("toString", "123", "456")` (likewise `constructor`, `__proto__`, and the same for treatments) | throw `Unknown test: toString`, as for any name outside the catalog | high; not executed | OrderFactory.InheritedNameEscapesGuard | OrderFactory.CorrectedGuardRejectsExactlyUnknown |

## Left out

- The order built for an inherited name is not modelled. Its coding would be a JavaScript function, or `Object.prototype` itself for `__proto__`. The code as written is modelled only as far as the guard: `PropertyAsWritten` models the lookup `table[key]`, and `GuardRejectsAsWritten` models the truthiness test that follows it. `CreateTestOrder` and `CreateTreatmentOrder` throw for such names (see Findings).
- JSON shape: an absent array (`category` of the fixed orders, `coding` of a reason) is modelled as the empty sequence. The order of keys in the object literals is not modelled.
- Ehr.Value: an object payload keeps only `id`, `gender` and `birthDate`. The `humanName` and `formatAge` parameters can therefore depend only on those three fields, and the deceased flags (`deceasedBoolean`, `deceasedDateTime`) are not kept. Numbers, booleans, arrays, and objects whose `id`, `gender` or `birthDate` is not a string are left out.
- Ehr.EhrFrame.OnMessage: a message whose `data` is `null` or `undefined` is not modelled; reading `event.data.type` then throws. Data of another non-object kind has no `type` and takes the default branch, which a non-setter message type models. The `console.warn` of the default branch is I/O and is left out.
- `humanName` and `formatAge` come from a library that is not part of this model. They are parameters of `NameShown` and `AgeShown`.
- The contents of `orderables.json` are not part of this model. The selection works on any item strings.
- Rendering is left out because it is presentation only: Helmet, the iframe and its sandbox, the dialog markup, the `(deceased)` flag and the missing-`app` alert.
- The FHIR client is left out because it is network I/O against a foreign library: `FHIR.client`, `fhirClient.create` and its then/catch logging. `orderPHQ9` is modelled only as the order it submits (`Phq9OrderToSubmit`).
- `showModal`/`close` and `addEventListener`/`removeEventListener` are left out because they are DOM plumbing.
- React's asynchronous, batched state updates are left out. Each handler is modelled as an immediate update of the frame's fields.
