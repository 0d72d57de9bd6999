/**
  The state logic of the EHR frame component (src/components/EHR/index.tsx),
  without its rendering: the checkbox selection of tests and treatments, the
  context (user, patient, encounter id) that the embedded application posts
  to the frame, the "Unknown" fallbacks of the status bar and the ids the
  PHQ-9 order is built with.
*/
module Ehr {
  import opened Wrappers
  import opened Fhir
  import Phq9Order

  /**
    A message payload as the frame stores it: nothing (`null` or an absent
    payload), a string, or a FHIR Patient/Practitioner object of which only
    the fields the frame reads are kept.
  */
  datatype Value =
    | Null
    | Str(s: string)
    | Obj(id: Option<string>, gender: Option<string>, birthDate: Option<string>)

  /** JavaScript truthiness of a value. */
  predicate Truthy(v: Value) {
    match v
    case Null => false
    case Str(s) => s != ""
    case Obj(_, _, _) => true
  }

  /** `v?.id`: the id of an object payload, undefined for anything else. */
  function IdOf(v: Value): Option<string> {
    if v.Obj? then v.id else None
  }

  // ---- The selection of tests and treatments ----

  datatype Category = Tests | Treatments

  ghost predicate NoDuplicates(list: seq<string>) {
    forall x :: multiset(list)[x] <= 1
  }

  /** `list.filter((i) => i !== item)`. */
  function Without(list: seq<string>, item: string): (r: seq<string>)
    ensures item !in r
  {
    if list == [] then []
    else if list[0] == item then Without(list[1..], item)
    else [list[0]] + Without(list[1..], item)
  }

  /** Filtering removes every occurrence of the item and keeps every other item as often as it occurred. */
  lemma {:induction false} WithoutCounts(list: seq<string>, item: string)
    ensures multiset(Without(list, item))[item] == 0
    ensures forall x :: x != item ==> multiset(Without(list, item))[x] == multiset(list)[x]
    ensures |Without(list, item)| == |list| - multiset(list)[item]
  {
    if list != [] {
      assert list == [list[0]] + list[1..];
      WithoutCounts(list[1..], item);
    }
  }

  /** Filtering commutes with concatenation, so the survivors keep their relative order. */
  lemma {:induction false} WithoutAppend(a: seq<string>, b: seq<string>, item: string)
    ensures Without(a + b, item) == Without(a, item) + Without(b, item)
  {
    if a != [] {
      assert (a + b)[0] == a[0];
      assert (a + b)[1..] == a[1..] + b;
      WithoutAppend(a[1..], b, item);
      if a[0] != item {
        calc {
          Without(a + b, item);
          [a[0]] + Without(a[1..] + b, item);
          [a[0]] + (Without(a[1..], item) + Without(b, item));
          ([a[0]] + Without(a[1..], item)) + Without(b, item);
          Without(a, item) + Without(b, item);
        }
      } else {
        calc {
          Without(a + b, item);
          Without(a[1..] + b, item);
          Without(a[1..], item) + Without(b, item);
          Without(a, item) + Without(b, item);
        }
      }
    } else {
      assert a + b == b;
    }
  }

  /** Filtering out an item that does not occur changes nothing. */
  lemma {:induction false} WithoutAbsent(list: seq<string>, item: string)
    requires item !in list
    ensures Without(list, item) == list
  {
    if list != [] {
      WithoutAbsent(list[1..], item);
    }
  }

  /**
    The checkbox updater of `handleCheckboxChange`: a present item is
    removed (every occurrence), an absent one is appended at the end.
  */
  function Toggled(list: seq<string>, item: string): (r: seq<string>)
    ensures item in r <==> item !in list
    ensures forall x :: x != item ==> multiset(r)[x] == multiset(list)[x]
    ensures item !in list ==> r == list + [item]
    ensures item in list ==> r == Without(list, item)
  {
    WithoutCounts(list, item);
    if item in list then Without(list, item) else list + [item]
  }

  /** Removing keeps the relative order of the items that stay. */
  lemma {:induction false} ToggleRemoveKeepsOrder(a: seq<string>, item: string, b: seq<string>)
    requires item !in a && item !in b
    ensures Toggled(a + [item] + b, item) == a + b
  {
    assert (a + [item] + b)[|a|] == item;
    WithoutAppend(a + [item], b, item);
    WithoutAppend(a, [item], item);
    WithoutAbsent(a, item);
    WithoutAbsent(b, item);
    assert Without([item], item) == [];
    calc {
      Toggled(a + [item] + b, item);
      Without(a + [item] + b, item);
      Without(a + [item], item) + Without(b, item);
      Without(a, item) + Without([item], item) + Without(b, item);
      a + b;
    }
  }

  /** Toggling an absent item twice restores the list. */
  lemma ToggleTwiceRestores(list: seq<string>, item: string)
    requires item !in list
    ensures Toggled(Toggled(list, item), item) == list
  {
    ToggleRemoveKeepsOrder(list, item, []);
    assert list + [item] + [] == list + [item];
    assert list + [] == list;
  }

  /** Toggling a present item twice moves it, once, to the end. */
  lemma ToggleTwicePresent(list: seq<string>, item: string)
    requires item in list
    ensures Toggled(Toggled(list, item), item) == Without(list, item) + [item]
  {
  }

  /** A selection without duplicates stays without duplicates. */
  lemma ToggledKeepsNoDuplicates(list: seq<string>, item: string)
    requires NoDuplicates(list)
    ensures NoDuplicates(Toggled(list, item))
  {
    var r := Toggled(list, item);
    forall x ensures multiset(r)[x] <= 1 {
      if x == item && item !in list {
        assert multiset(r) == multiset(list) + multiset{item};
      }
    }
  }

  // ---- The context posted by the embedded application ----

  /** The context state: `user`, `patient` and `encounterID`. */
  datatype Context = Context(user: Value, patient: Value, encounterId: Value)

  /** A `MessageEvent`: its origin, `data.type` and `data.payload`. */
  datatype Message = Message(origin: string, msgType: string, payload: Value)

  /** The three message types the frame understands. */
  predicate IsSetter(msgType: string) {
    msgType == "setUser" || msgType == "setPatient" || msgType == "setEncounterID"
  }

  /** The context field a setter message overwrites. */
  function Slot(c: Context, msgType: string): Value
    requires IsSetter(msgType)
  {
    if msgType == "setUser" then c.user
    else if msgType == "setPatient" then c.patient
    else c.encounterId
  }

  /** `onMessage`: how one message changes the context. */
  function Step(pageOrigin: string, c: Context, m: Message): (c': Context)
    ensures m.origin != pageOrigin ==> c' == c
    ensures !IsSetter(m.msgType) ==> c' == c
    ensures m.origin == pageOrigin && IsSetter(m.msgType) ==> Slot(c', m.msgType) == m.payload
    ensures forall t :: IsSetter(t) && t != m.msgType ==> Slot(c', t) == Slot(c, t)
  {
    if m.origin != pageOrigin then c
    else if m.msgType == "setUser" then c.(user := m.payload)
    else if m.msgType == "setPatient" then c.(patient := m.payload)
    else if m.msgType == "setEncounterID" then c.(encounterId := m.payload)
    else c
  }

  /** The context after a run of messages, delivered in order. */
  function Run(pageOrigin: string, c: Context, ms: seq<Message>): Context
    decreases |ms|
  {
    if ms == [] then c else Run(pageOrigin, Step(pageOrigin, c, ms[0]), ms[1..])
  }

  /** A message from the page's own origin setting the given field. */
  predicate Sets(pageOrigin: string, m: Message, msgType: string) {
    m.origin == pageOrigin && m.msgType == msgType
  }

  /** A run with no same-origin message setting a field leaves that field as it was. */
  lemma {:induction false} RunKeepsUnsetField(pageOrigin: string, c: Context, ms: seq<Message>, t: string)
    requires IsSetter(t)
    requires forall j :: 0 <= j < |ms| ==> !Sets(pageOrigin, ms[j], t)
    ensures Slot(Run(pageOrigin, c, ms), t) == Slot(c, t)
    decreases |ms|
  {
    if ms != [] {
      assert !Sets(pageOrigin, ms[0], t);
      assert forall k :: 0 <= k < |ms| - 1 ==> ms[1..][k] == ms[k + 1];
      RunKeepsUnsetField(pageOrigin, Step(pageOrigin, c, ms[0]), ms[1..], t);
    }
  }

  /**
    After a run of messages, a field holds the payload of the last
    same-origin message that set it.
  */
  lemma {:induction false} RunLastWriterWins(pageOrigin: string, c: Context, ms: seq<Message>, t: string, j: nat)
    requires IsSetter(t)
    requires j < |ms| && Sets(pageOrigin, ms[j], t)
    requires forall k :: j < k < |ms| ==> !Sets(pageOrigin, ms[k], t)
    ensures Slot(Run(pageOrigin, c, ms), t) == ms[j].payload
    decreases |ms|
  {
    var c1 := Step(pageOrigin, c, ms[0]);
    assert forall k :: 0 <= k < |ms| - 1 ==> ms[1..][k] == ms[k + 1];
    if j == 0 {
      RunKeepsUnsetField(pageOrigin, c1, ms[1..], t);
    } else {
      RunLastWriterWins(pageOrigin, c1, ms[1..], t, j - 1);
    }
  }

  /** Messages from any other origin never change the context. */
  lemma {:induction false} ForeignMessagesIgnored(pageOrigin: string, c: Context, ms: seq<Message>)
    requires forall j :: 0 <= j < |ms| ==> ms[j].origin != pageOrigin
    ensures Run(pageOrigin, c, ms) == c
    decreases |ms|
  {
    if ms != [] {
      assert forall k :: 0 <= k < |ms| - 1 ==> ms[1..][k] == ms[k + 1];
      ForeignMessagesIgnored(pageOrigin, c, ms[1..]);
    }
  }

  // ---- What the status bar shows and what the PHQ-9 order is built with ----

  /** `v?.id ?? "Unknown"`: only an absent id falls back; an empty id is shown as is. */
  function IdOrUnknown(v: Value): (s: string)
    ensures IdOf(v).Some? ==> s == IdOf(v).value
    ensures IdOf(v).None? ==> s == "Unknown"
  {
    match IdOf(v)
    case Some(id) => id
    case None => "Unknown"
  }

  /** `v?.id || ""`: the id passed to `getPHQ9Order`, empty when there is none. */
  function IdOrEmpty(v: Value): (s: string)
    ensures IdOf(v).Some? ==> s == IdOf(v).value
    ensures IdOf(v).None? ==> s == ""
  {
    match IdOf(v)
    case Some(id) => id
    case None => ""
  }

  /** The two fallbacks agree on every id that is present, and differ only when it is absent. */
  lemma FallbacksAgreeOnPresentIds(v: Value)
    ensures IdOrUnknown(v) == IdOrEmpty(v) <==> IdOf(v).Some?
  {
  }

  /** `patient?.gender || "Unknown"`: an absent or empty gender shows as "Unknown". */
  function SexShown(v: Value): (s: string)
    ensures s != ""
    ensures v.Obj? && v.gender.Some? && v.gender.value != "" ==> s == v.gender.value
    ensures !(v.Obj? && v.gender.Some? && v.gender.value != "") ==> s == "Unknown"
  {
    if v.Obj? && v.gender.Some? && v.gender.value != "" then v.gender.value else "Unknown"
  }

  /** `v ? humanName(v) : "Unknown"`, with `humanName` a parameter. */
  function NameShown(v: Value, humanName: Value -> string): (s: string)
    ensures !Truthy(v) ==> s == "Unknown"
    ensures Truthy(v) ==> s == humanName(v)
  {
    if Truthy(v) then humanName(v) else "Unknown"
  }

  /** `patient && patient.birthDate ? formatAge(patient) || "Unknown" : "Unknown"`, with `formatAge` a parameter. */
  function AgeShown(v: Value, formatAge: Value -> string): (s: string)
    ensures s != ""
    ensures !(v.Obj? && v.birthDate.Some? && v.birthDate.value != "") ==> s == "Unknown"
    ensures v.Obj? && v.birthDate.Some? && v.birthDate.value != "" && formatAge(v) != "" ==> s == formatAge(v)
    ensures v.Obj? && v.birthDate.Some? && v.birthDate.value != "" && formatAge(v) == "" ==> s == "Unknown"
  {
    if Truthy(v) && v.Obj? && v.birthDate.Some? && v.birthDate.value != "" then
      (if formatAge(v) != "" then formatAge(v) else "Unknown")
    else "Unknown"
  }

  /**
    The EHR frame's state: the page origin it accepts messages from, the
    context posted to it and the selected tests and treatments.
  */
  class EhrFrame {
    const pageOrigin: string
    var user: Value
    var patient: Value
    var encounterId: Value
    var tests: seq<string>
    var treatments: seq<string>

    /** The context part of the frame's state, as one value. */
    function CurrentContext(): Context
      reads this
    {
      Context(user, patient, encounterId)
    }

    /** The initial state: no user, no patient, encounter "Unknown", nothing selected. */
    constructor (pageOrigin: string)
      ensures this.pageOrigin == pageOrigin
      ensures user == Null && patient == Null && encounterId == Str("Unknown")
      ensures tests == [] && treatments == []
      ensures PatientIdShown() == "Unknown" && UserIdShown() == "Unknown"
    {
      this.pageOrigin := pageOrigin;
      user, patient, encounterId := Null, Null, Str("Unknown");
      tests, treatments := [], [];
    }

    /** `handleCheckboxChange(category, item)`: flips `item` in the named category only. */
    method ToggleSelection(category: Category, item: string)
      modifies this
      ensures tests == if category == Tests then Toggled(old(tests), item) else old(tests)
      ensures treatments == if category == Treatments then Toggled(old(treatments), item) else old(treatments)
      ensures CurrentContext() == old(CurrentContext())
      ensures old(NoDuplicates(tests)) ==> NoDuplicates(tests)
      ensures old(NoDuplicates(treatments)) ==> NoDuplicates(treatments)
    {
      match category
      case Tests =>
        if NoDuplicates(tests) { ToggledKeepsNoDuplicates(tests, item); }
        tests := Toggled(tests, item);
      case Treatments =>
        if NoDuplicates(treatments) { ToggledKeepsNoDuplicates(treatments, item); }
        treatments := Toggled(treatments, item);
    }

    /** `onMessage(event)`: only same-origin setter messages change the context. */
    method OnMessage(m: Message)
      modifies this
      ensures CurrentContext() == Step(pageOrigin, old(CurrentContext()), m)
      ensures m.origin != pageOrigin ==> user == old(user) && patient == old(patient) && encounterId == old(encounterId)
      ensures tests == old(tests) && treatments == old(treatments)
    {
      if m.origin == pageOrigin {
        match m.msgType {
          case "setUser" => user := m.payload;
          case "setPatient" => patient := m.payload;
          case "setEncounterID" => encounterId := m.payload;
          case _ =>
        }
      }
    }

    /** `patientID` in the status bar. */
    function PatientIdShown(): (s: string)
      reads this
      ensures IdOf(patient).Some? ==> s == IdOf(patient).value
      ensures IdOf(patient).None? ==> s == "Unknown"
    {
      IdOrUnknown(patient)
    }

    /** `userID` in the status bar. */
    function UserIdShown(): (s: string)
      reads this
      ensures IdOf(user).Some? ==> s == IdOf(user).value
      ensures IdOf(user).None? ==> s == "Unknown"
    {
      IdOrUnknown(user)
    }

    /** The order `orderPHQ9` submits: built from the patient and user ids, `""` standing in for a missing one. */
    function Phq9OrderToSubmit(): (r: Resource)
      reads this
      ensures r.ServiceRequest?
      ensures r.subject.reference == "Patient/" + (if IdOf(patient).Some? then IdOf(patient).value else "")
      ensures r.requester.reference == "Practitioner/" + (if IdOf(user).Some? then IdOf(user).value else "")
      ensures r == Phq9Order.GetPHQ9Order(IdOrEmpty(patient), IdOrEmpty(user))
    {
      Phq9Order.GetPHQ9Order(IdOrEmpty(patient), IdOrEmpty(user))
    }
  }
}
