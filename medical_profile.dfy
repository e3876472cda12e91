/** The medical-profile form: blood type, emergency contact, three lists of
    medical items and the special circumstances, edited as immutable values,
    loaded from and saved to the user's profile. */
module MedicalProfile {
  import opened Wrappers
  import opened Strings
  import opened Seqs
  import opened Payloads

  datatype Category = Conditions | Allergies | Medications

  datatype MedicalInfo = MedicalInfo(conditions: seq<string>, allergies: seq<string>, medications: seq<string>)

  datatype Profile = Profile(
    bloodType: string,
    contactName: string, contactRelationship: string, contactPhone: string,
    info: MedicalInfo)

  /** The screen's state: the profile, the special circumstances and the
      three "add" text inputs. */
  datatype Form = Form(
    profile: Profile, specialCircumstances: seq<string>,
    newCondition: string, newAllergy: string, newMedication: string)

  function Items(info: MedicalInfo, c: Category): seq<string> {
    match c
    case Conditions => info.conditions
    case Allergies => info.allergies
    case Medications => info.medications
  }

  /** `{...info, [c]: items}` */
  function WithItems(info: MedicalInfo, c: Category, items: seq<string>): (r: MedicalInfo)
    ensures Items(r, c) == items
    ensures forall d :: d != c ==> Items(r, d) == Items(info, d)
  {
    match c
    case Conditions => info.(conditions := items)
    case Allergies => info.(allergies := items)
    case Medications => info.(medications := items)
  }

  function Input(f: Form, c: Category): string {
    match c
    case Conditions => f.newCondition
    case Allergies => f.newAllergy
    case Medications => f.newMedication
  }

  function ClearInput(f: Form, c: Category): (r: Form)
    ensures Input(r, c) == ""
    ensures forall d :: d != c ==> Input(r, d) == Input(f, d)
    ensures r.profile == f.profile && r.specialCircumstances == f.specialCircumstances
  {
    match c
    case Conditions => f.(newCondition := "")
    case Allergies => f.(newAllergy := "")
    case Medications => f.(newMedication := "")
  }

  /** `addItem`: blank text is ignored; otherwise the trimmed text is
      appended to the category and that category's input cleared. */
  function AddItem(f: Form, c: Category, item: string): Form {
    if Trim(item) == [] then f
    else
      var p := f.profile;
      ClearInput(f.(profile := p.(info := WithItems(p.info, c, Items(p.info, c) + [Trim(item)]))), c)
  }

  /** Adding touches one list and one input only; the item added is the
      text without surrounding white space. */
  lemma AddItemSpec(f: Form, c: Category, item: string)
    ensures Blank(item) ==> AddItem(f, c, item) == f
    ensures !Blank(item) ==>
      var r := AddItem(f, c, item);
      && Items(r.profile.info, c) == Items(f.profile.info, c) + [Trim(item)]
      && (forall d :: d != c ==> Items(r.profile.info, d) == Items(f.profile.info, d))
      && r.profile.(info := f.profile.info) == f.profile
      && r.specialCircumstances == f.specialCircumstances
      && Input(r, c) == ""
      && (forall d :: d != c ==> Input(r, d) == Input(f, d))
    ensures !Blank(item) ==> var t := Trim(item); t != [] && !IsSpace(t[0]) && !IsSpace(t[|t| - 1])
  {
  }

  /** `toggleFromCommon`, offered for conditions and allergies. */
  function ToggleFromCommon(f: Form, c: Category, item: string): Form
    requires c != Medications
  {
    var p := f.profile;
    f.(profile := p.(info := WithItems(p.info, c, Toggle(Items(p.info, c), item))))
  }

  /** A common item is removed everywhere in its list if present, else
      appended; nothing else changes, and toggling an absent item twice gives
      the form back. */
  lemma ToggleFromCommonSpec(f: Form, c: Category, item: string)
    requires c != Medications
    ensures var r := ToggleFromCommon(f, c, item);
      && (item in Items(f.profile.info, c) ==>
            && item !in Items(r.profile.info, c)
            && Items(r.profile.info, c) == RemoveAll(Items(f.profile.info, c), item)
            && multiset(Items(r.profile.info, c)) == multiset(Items(f.profile.info, c))[item := 0])
      && (item !in Items(f.profile.info, c) ==> Items(r.profile.info, c) == Items(f.profile.info, c) + [item])
      && (forall d :: d != c ==> Items(r.profile.info, d) == Items(f.profile.info, d))
      && r.(profile := f.profile) == f
    ensures item !in Items(f.profile.info, c) ==> ToggleFromCommon(ToggleFromCommon(f, c, item), c, item) == f
  {
    var items := Items(f.profile.info, c);
    if item !in items {
      ToggleTwiceRestores(items, item);
      var r := ToggleFromCommon(f, c, item);
      var r2 := ToggleFromCommon(r, c, item);
      assert Items(r2.profile.info, c) == items;
      assert r2.profile.info == f.profile.info by {
        match c
        case Conditions =>
        case Allergies =>
      }
    }
  }

  /** `toggleSpecialCircumstance`: the same include/exclude rule. */
  function ToggleSpecialCircumstance(f: Form, v: string): (r: Form)
    ensures v in f.specialCircumstances ==>
      && v !in r.specialCircumstances
      && r.specialCircumstances == RemoveAll(f.specialCircumstances, v)
      && multiset(r.specialCircumstances) == multiset(f.specialCircumstances)[v := 0]
    ensures v !in f.specialCircumstances ==> r.specialCircumstances == f.specialCircumstances + [v]
    ensures r.(specialCircumstances := f.specialCircumstances) == f
  {
    f.(specialCircumstances := Toggle(f.specialCircumstances, v))
  }

  /** `s.filter((_, i) => i !== index)` */
  function RemoveAt(s: seq<string>, index: int): (r: seq<string>)
    ensures 0 <= index < |s| ==> |r| == |s| - 1 && multiset(r) + multiset{s[index]} == multiset(s)
    ensures !(0 <= index < |s|) ==> r == s
  {
    if 0 <= index < |s| then
      assert s == s[..index] + [s[index]] + s[index + 1..];
      s[..index] + s[index + 1..]
    else s
  }

  /** `removeItem`: the element at the index goes, the others keep their
      order; an index out of range changes nothing. */
  function RemoveItem(f: Form, c: Category, index: int): (r: Form)
    ensures 0 <= index < |Items(f.profile.info, c)| ==>
      var s := Items(f.profile.info, c);
      var t := Items(r.profile.info, c);
      |t| == |s| - 1
      && (forall i :: 0 <= i < index ==> t[i] == s[i])
      && (forall i :: index <= i < |t| ==> t[i] == s[i + 1])
    ensures !(0 <= index < |Items(f.profile.info, c)|) ==> r == f
    ensures forall d :: d != c ==> Items(r.profile.info, d) == Items(f.profile.info, d)
  {
    var p := f.profile;
    if 0 <= index < |Items(p.info, c)| then
      f.(profile := p.(info := WithItems(p.info, c, RemoveAt(Items(p.info, c), index))))
    else f
  }

  // ---------------------------------------------------------------------
  // Server mapping
  // ---------------------------------------------------------------------

  /** The fields of the user's profile record the form reads. */
  datatype ServerProfile = ServerProfile(
    bloodType: Option<string>,
    emergencyContactName: Option<string>, emergencyContactRelation: Option<string>,
    emergencyContactPhone: Option<string>,
    medicalConditions: Option<seq<string>>, allergies: Option<seq<string>>,
    medications: Option<seq<string>>)   // medicalInfo.medications

  /** `fetchProfile`'s mapping: missing strings become '' and missing lists []. */
  function FromServer(d: ServerProfile): Profile {
    Profile(OrElse(d.bloodType, ""),
            OrElse(d.emergencyContactName, ""), OrElse(d.emergencyContactRelation, ""),
            OrElse(d.emergencyContactPhone, ""),
            MedicalInfo(d.medicalConditions.GetOr([]), d.allergies.GetOr([]), d.medications.GetOr([])))
  }

  /** The PATCH body of `handleSave`. */
  datatype SaveBody = SaveBody(
    bloodType: string,
    emergencyContactName: string, emergencyContactRelation: string, emergencyContactPhone: string,
    medicalConditions: seq<string>, allergies: seq<string>, specialCircumstances: seq<string>)

  function SavePayload(f: Form): SaveBody {
    var p := f.profile;
    SaveBody(p.bloodType, p.contactName, p.contactRelationship, p.contactPhone,
             p.info.conditions, p.info.allergies, f.specialCircumstances)
  }

  /** The stored record after a save, with the medications the server
      already held. */
  function Stored(b: SaveBody, serverMedications: seq<string>): ServerProfile {
    ServerProfile(Some(b.bloodType), Some(b.emergencyContactName), Some(b.emergencyContactRelation),
                  Some(b.emergencyContactPhone), Some(b.medicalConditions), Some(b.allergies),
                  Some(serverMedications))
  }

  /** Saving and loading again gives the profile back except for the
      medications, which the save does not carry. */
  lemma SaveThenLoad(f: Form, serverMedications: seq<string>)
    ensures FromServer(Stored(SavePayload(f), serverMedications))
      == f.profile.(info := f.profile.info.(medications := serverMedications))
  {
  }

  /** A load with no body, or a failed one, keeps the form. */
  function FetchProfile(f: Form, resp: Option<Option<ServerProfile>>): (r: Form)
    ensures resp.Some? && resp.value.Some? ==> r == f.(profile := FromServer(resp.value.value))
    ensures r.specialCircumstances == f.specialCircumstances
    ensures !(resp.Some? && resp.value.Some?) ==> r == f
  {
    if resp.Some? && resp.value.Some? then f.(profile := FromServer(resp.value.value)) else f
  }

  /** A loaded profile has no missing field: a record without any of them
      loads as the empty profile. */
  lemma FromServerEmpty()
    ensures FromServer(ServerProfile(None, None, None, None, None, None, None))
      == Profile("", "", "", "", MedicalInfo([], [], []))
  {
  }

  /** The name shown for the uploaded ID: the last `/` segment of its
      `fileUrl`, or `uploaded_id` when there is no URL to split. */
  function IdDisplayName(fileUrl: Option<string>): string {
    if fileUrl.Some? then LastSegment(fileUrl.value, '/') else "uploaded_id"
  }

  lemma IdDisplayNameIsFileName(dir: string, name: string)
    requires '/' !in name
    ensures IdDisplayName(Some(dir + "/" + name)) == name
  {
    LastSegmentAfterSeparator(dir, '/', name);
  }
}
