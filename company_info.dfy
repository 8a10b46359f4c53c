/**
 * The company-information dashboard: an "About us" half and a "Contact" half
 * edited through one form whose inputs are addressed by name
 * (`location.city`, `availableHours.weekdays.from`, `phoneNumbers[1]`), a
 * bounded list of phone numbers, and the multipart bodies that a save and a
 * restore from history send.
 */
module CompanyInfo {
  import opened Wrappers
  import opened Strings
  import opened Backend

  // ---------------------------------------------------------------- the record

  datatype Location = Location(address: string, city: string, country: string, timezone: string)

  datatype AboutUs = AboutUs(mission: string, vision: string, title: string, location: Location, imageUrl: string)

  datatype TimeRange = TimeRange(from: string, to: string)

  datatype Hours = Hours(weekdays: TimeRange, weekends: TimeRange)

  datatype ContactInfo = ContactInfo(
    email: string,
    emailAppPassword: string,
    phoneNumbers: seq<string>,
    availableHours: Hours)

  datatype Info = Info(aboutUs: AboutUs, contactInfo: ContactInfo)

  /** The two tabs of the form; the active one decides which half an edit or a save touches. */
  datatype Tab = AboutTab | ContactTab

  /** The "About us" half before anything is loaded, and when the server has none. */
  const EmptyAbout := AboutUs("", "", "", Location("", "", "", ""), "")

  /** The "Contact" half before anything is loaded, and when the server has none. */
  const EmptyContact := ContactInfo("", "", [""], Hours(TimeRange("09:00", "17:00"), TimeRange("", "")))

  const InitialInfo := Info(EmptyAbout, EmptyContact)

  /** The add button stops offering new phone numbers at this many. */
  const MaxPhones := 3

  predicate PhonesInBounds(info: Info) {
    1 <= |info.contactInfo.phoneNumbers| <= MaxPhones
  }

  // ------------------------------------------------------------ leaf addresses

  datatype AboutKey = Mission | Vision | Title | ImageUrl
  datatype LocationKey = Address | City | Country | Timezone
  datatype ContactKey = Email | EmailAppPassword
  datatype Period = Weekdays | Weekends
  datatype TimeKind = From | To

  /** One string leaf of the record. */
  datatype Path =
    | AboutLeaf(about: AboutKey)
    | LocationLeaf(place: LocationKey)
    | ContactLeaf(contact: ContactKey)
    | HoursLeaf(period: Period, kind: TimeKind)
    | PhoneLeaf(index: nat)

  /** The leaves that live in the "About us" half. */
  predicate InAboutHalf(p: Path) {
    p.AboutLeaf? || p.LocationLeaf?
  }

  function AboutValue(a: AboutUs, k: AboutKey): string {
    match k
    case Mission => a.mission
    case Vision => a.vision
    case Title => a.title
    case ImageUrl => a.imageUrl
  }

  function LocationValue(l: Location, k: LocationKey): string {
    match k
    case Address => l.address
    case City => l.city
    case Country => l.country
    case Timezone => l.timezone
  }

  function ContactValue(c: ContactInfo, k: ContactKey): string {
    match k
    case Email => c.email
    case EmailAppPassword => c.emailAppPassword
  }

  function PeriodRange(h: Hours, p: Period): TimeRange {
    match p
    case Weekdays => h.weekdays
    case Weekends => h.weekends
  }

  function RangeValue(r: TimeRange, k: TimeKind): string {
    match k
    case From => r.from
    case To => r.to
  }

  /** The value at a leaf; a phone index past the end of the list has none. */
  function Get(info: Info, p: Path): Option<string> {
    match p
    case AboutLeaf(k) => Some(AboutValue(info.aboutUs, k))
    case LocationLeaf(k) => Some(LocationValue(info.aboutUs.location, k))
    case ContactLeaf(k) => Some(ContactValue(info.contactInfo, k))
    case HoursLeaf(period, kind) => Some(RangeValue(PeriodRange(info.contactInfo.availableHours, period), kind))
    case PhoneLeaf(i) =>
      var phones := info.contactInfo.phoneNumbers;
      if i < |phones| then Some(phones[i]) else None
  }

  /** Two records that agree on every leaf are the same record, so `Get` sees all of it. */
  lemma LeavesDetermineInfo(a: Info, b: Info)
    requires forall q :: Get(a, q) == Get(b, q)
    ensures a == b
  {
    var pa, pb := a.contactInfo.phoneNumbers, b.contactInfo.phoneNumbers;
    assert Get(a, PhoneLeaf(|pa|)) == Get(b, PhoneLeaf(|pa|));
    assert Get(a, PhoneLeaf(|pb|)) == Get(b, PhoneLeaf(|pb|));
    assert |pa| == |pb|;
    forall i | 0 <= i < |pa| ensures pa[i] == pb[i] {
      assert Get(a, PhoneLeaf(i)) == Get(b, PhoneLeaf(i));
    }
    assert pa == pb;
    assert Get(a, AboutLeaf(Mission)) == Get(b, AboutLeaf(Mission));
    assert Get(a, AboutLeaf(Vision)) == Get(b, AboutLeaf(Vision));
    assert Get(a, AboutLeaf(Title)) == Get(b, AboutLeaf(Title));
    assert Get(a, AboutLeaf(ImageUrl)) == Get(b, AboutLeaf(ImageUrl));
    assert Get(a, LocationLeaf(Address)) == Get(b, LocationLeaf(Address));
    assert Get(a, LocationLeaf(City)) == Get(b, LocationLeaf(City));
    assert Get(a, LocationLeaf(Country)) == Get(b, LocationLeaf(Country));
    assert Get(a, LocationLeaf(Timezone)) == Get(b, LocationLeaf(Timezone));
    assert Get(a, ContactLeaf(Email)) == Get(b, ContactLeaf(Email));
    assert Get(a, ContactLeaf(EmailAppPassword)) == Get(b, ContactLeaf(EmailAppPassword));
    assert Get(a, HoursLeaf(Weekdays, From)) == Get(b, HoursLeaf(Weekdays, From));
    assert Get(a, HoursLeaf(Weekdays, To)) == Get(b, HoursLeaf(Weekdays, To));
    assert Get(a, HoursLeaf(Weekends, From)) == Get(b, HoursLeaf(Weekends, From));
    assert Get(a, HoursLeaf(Weekends, To)) == Get(b, HoursLeaf(Weekends, To));
  }

  function WithAbout(a: AboutUs, k: AboutKey, v: string): AboutUs {
    match k
    case Mission => a.(mission := v)
    case Vision => a.(vision := v)
    case Title => a.(title := v)
    case ImageUrl => a.(imageUrl := v)
  }

  function WithLocation(l: Location, k: LocationKey, v: string): Location {
    match k
    case Address => l.(address := v)
    case City => l.(city := v)
    case Country => l.(country := v)
    case Timezone => l.(timezone := v)
  }

  function WithContact(c: ContactInfo, k: ContactKey, v: string): ContactInfo {
    match k
    case Email => c.(email := v)
    case EmailAppPassword => c.(emailAppPassword := v)
  }

  function WithRange(r: TimeRange, k: TimeKind, v: string): TimeRange {
    match k
    case From => r.(from := v)
    case To => r.(to := v)
  }

  function WithPeriod(h: Hours, p: Period, r: TimeRange): Hours {
    match p
    case Weekdays => h.(weekdays := r)
    case Weekends => h.(weekends := r)
  }

  /**
   * The spread-based update of one leaf: the leaf gets `v`, every other leaf
   * keeps its value, and the phone list keeps its length. An index past the
   * end of the list changes nothing.
   */
  function Update(info: Info, p: Path, v: string): (r: Info)
    ensures Get(r, p) == if p.PhoneLeaf? && p.index >= |info.contactInfo.phoneNumbers| then None else Some(v)
    ensures forall q :: q != p ==> Get(r, q) == Get(info, q)
    ensures |r.contactInfo.phoneNumbers| == |info.contactInfo.phoneNumbers|
  {
    var about := info.aboutUs;
    var contact := info.contactInfo;
    match p
    case AboutLeaf(k) => info.(aboutUs := WithAbout(about, k, v))
    case LocationLeaf(k) => info.(aboutUs := about.(location := WithLocation(about.location, k, v)))
    case ContactLeaf(k) => info.(contactInfo := WithContact(contact, k, v))
    case HoursLeaf(period, kind) =>
      var hours := contact.availableHours;
      var range := WithRange(PeriodRange(hours, period), kind, v);
      info.(contactInfo := contact.(availableHours := WithPeriod(hours, period, range)))
    case PhoneLeaf(i) =>
      if i < |contact.phoneNumbers| then
        info.(contactInfo := contact.(phoneNumbers := contact.phoneNumbers[i := v]))
      else info
  }

  // ------------------------------------------------------------- input names

  const LocationPrefix := "location."
  const HoursPrefix := "availableHours."
  const PhonePrefix := "phoneNumbers["

  function AboutKeyName(k: AboutKey): string {
    match k
    case Mission => "mission"
    case Vision => "vision"
    case Title => "title"
    case ImageUrl => "imageUrl"
  }

  function LocationKeyName(k: LocationKey): string {
    match k
    case Address => "address"
    case City => "city"
    case Country => "country"
    case Timezone => "timezone"
  }

  function ContactKeyName(k: ContactKey): string {
    match k
    case Email => "email"
    case EmailAppPassword => "emailAppPassword"
  }

  function PeriodName(p: Period): string {
    match p
    case Weekdays => "weekdays"
    case Weekends => "weekends"
  }

  function TimeKindName(k: TimeKind): string {
    match k
    case From => "from"
    case To => "to"
  }

  function AboutKeyNamed(s: string): Option<AboutKey> {
    if s == "mission" then Some(Mission)
    else if s == "vision" then Some(Vision)
    else if s == "title" then Some(Title)
    else if s == "imageUrl" then Some(ImageUrl)
    else None
  }

  function LocationKeyNamed(s: string): Option<LocationKey> {
    if s == "address" then Some(Address)
    else if s == "city" then Some(City)
    else if s == "country" then Some(Country)
    else if s == "timezone" then Some(Timezone)
    else None
  }

  function ContactKeyNamed(s: string): Option<ContactKey> {
    if s == "email" then Some(Email)
    else if s == "emailAppPassword" then Some(EmailAppPassword)
    else None
  }

  function PeriodNamed(s: string): Option<Period> {
    if s == "weekdays" then Some(Weekdays) else if s == "weekends" then Some(Weekends) else None
  }

  function TimeKindNamed(s: string): Option<TimeKind> {
    if s == "from" then Some(From) else if s == "to" then Some(To) else None
  }

  /** The `name` attribute of the input that edits a leaf, and the tab that shows it. */
  function NameOf(p: Path): string {
    match p
    case AboutLeaf(k) => AboutKeyName(k)
    case LocationLeaf(k) => LocationPrefix + LocationKeyName(k)
    case ContactLeaf(k) => ContactKeyName(k)
    case HoursLeaf(period, kind) => HoursPrefix + PeriodName(period) + "." + TimeKindName(kind)
    case PhoneLeaf(i) => PhonePrefix + DecimalString(i) + "]"
  }

  function TabOf(p: Path): Tab {
    if InAboutHalf(p) then AboutTab else ContactTab
  }

  /**
   * The leaf an input name addresses, by the tests `handleInputChange` makes:
   * on the about tab `includes("location.")` and the second dot-separated
   * piece; on the contact tab `includes("availableHours.")` and the second and
   * third pieces, then `startsWith("phoneNumbers[")` and the digits before `]`,
   * else the name itself. A name that addresses no leaf of the record gives
   * `None`. Only the active tab's half can be addressed.
   */
  function ParseName(tab: Tab, name: string): (r: Option<Path>)
    ensures r.Some? ==> (InAboutHalf(r.value) <==> tab == AboutTab)
  {
    if tab == AboutTab then ParseAboutName(name) else ParseContactName(name)
  }

  function ParseAboutName(name: string): (r: Option<Path>)
    ensures r.Some? ==> InAboutHalf(r.value)
  {
    if Contains(name, LocationPrefix) then
      var pieces := Split(name, '.');
      if |pieces| < 2 then None
      else match LocationKeyNamed(pieces[1])
        case Some(k) => Some(LocationLeaf(k))
        case None => None
    else match AboutKeyNamed(name)
      case Some(k) => Some(AboutLeaf(k))
      case None => None
  }

  function ParseContactName(name: string): (r: Option<Path>)
    ensures r.Some? ==> !InAboutHalf(r.value)
  {
    if Contains(name, HoursPrefix) then
      var pieces := Split(name, '.');
      if |pieces| < 3 then None
      else match (PeriodNamed(pieces[1]), TimeKindNamed(pieces[2]))
        case (Some(period), Some(kind)) => Some(HoursLeaf(period, kind))
        case _ => None
    else if StartsWith(name, PhonePrefix) then
      var rest := name[|PhonePrefix|..];
      var digits := DigitPrefix(rest);
      if digits != [] && |digits| < |rest| && rest[|digits|] == ']' then Some(PhoneLeaf(DecimalValue(digits)))
      else None
    else match ContactKeyNamed(name)
      case Some(k) => Some(ContactLeaf(k))
      case None => None
  }

  lemma NoDotInLeafNames(p: Path)
    requires p.AboutLeaf? || p.ContactLeaf? || p.PhoneLeaf?
    ensures '.' !in NameOf(p)
  {
    if p.PhoneLeaf? {
      var ds := DecimalString(p.index);
      assert NameOf(p) == PhonePrefix + ds + "]";
      assert forall i :: 0 <= i < |NameOf(p)| ==> NameOf(p)[i] != '.' by {
        forall i | 0 <= i < |NameOf(p)| ensures NameOf(p)[i] != '.' {
          if |PhonePrefix| <= i < |PhonePrefix| + |ds| {
            assert NameOf(p)[i] == ds[i - |PhonePrefix|];
          }
        }
      }
    }
  }

  lemma AboutNameRoundTrip(k: AboutKey)
    ensures ParseName(AboutTab, NameOf(AboutLeaf(k))) == Some(AboutLeaf(k))
  {
    NoDotInLeafNames(AboutLeaf(k));
    ContainsNeedsChar(NameOf(AboutLeaf(k)), LocationPrefix, '.');
  }

  lemma ContactNameRoundTrip(k: ContactKey)
    ensures ParseName(ContactTab, NameOf(ContactLeaf(k))) == Some(ContactLeaf(k))
  {
    var name := NameOf(ContactLeaf(k));
    NoDotInLeafNames(ContactLeaf(k));
    ContainsNeedsChar(name, HoursPrefix, '.');
    assert name[0] == 'e';
    assert !StartsWith(name, PhonePrefix) by {
      if |PhonePrefix| <= |name| {
        assert name[..|PhonePrefix|][0] != PhonePrefix[0];
      }
    }
  }

  /** A `location.` name is read by the piece after the dot. */
  lemma ParsesAsLocation(key: string)
    requires '.' !in key
    ensures ParseAboutName(LocationPrefix + key)
      == match LocationKeyNamed(key) case Some(k) => Some(LocationLeaf(k)) case None => None
  {
    var name := LocationPrefix + key;
    ContainsPrefix(name, LocationPrefix);
    assert name == "location" + ['.'] + key;
    SplitAfter("location", '.', key);
  }

  lemma LocationNameRoundTrip(k: LocationKey)
    ensures ParseName(AboutTab, NameOf(LocationLeaf(k))) == Some(LocationLeaf(k))
  {
    var key := LocationKeyName(k);
    assert '.' !in key && LocationKeyNamed(key) == Some(k);
    ParsesAsLocation(key);
  }

  lemma SplitThree(a: string, b: string, c: string)
    requires '.' !in a && '.' !in b && '.' !in c
    ensures Split(a + ['.'] + (b + ['.'] + c), '.') == [a, b, c]
  {
    SplitAfter(a, '.', b + ['.'] + c);
    SplitAfter(b, '.', c);
  }

  /** An `availableHours.` name is read by the two pieces after it. */
  lemma ParsesAsHours(pn: string, kn: string)
    requires '.' !in pn && '.' !in kn
    ensures ParseContactName(HoursPrefix + pn + "." + kn)
      == match (PeriodNamed(pn), TimeKindNamed(kn))
         case (Some(period), Some(kind)) => Some(HoursLeaf(period, kind))
         case _ => None
  {
    var name := HoursPrefix + pn + "." + kn;
    ContainsPrefix(name, HoursPrefix);
    assert name == "availableHours" + ['.'] + (pn + ['.'] + kn);
    SplitThree("availableHours", pn, kn);
  }

  lemma HoursNameRoundTrip(period: Period, kind: TimeKind)
    ensures ParseName(ContactTab, NameOf(HoursLeaf(period, kind))) == Some(HoursLeaf(period, kind))
  {
    var pn, kn := PeriodName(period), TimeKindName(kind);
    assert '.' !in pn && '.' !in kn;
    assert PeriodNamed(pn) == Some(period) && TimeKindNamed(kn) == Some(kind);
    ParsesAsHours(pn, kn);
  }

  lemma PhoneNameRoundTrip(i: nat)
    ensures ParseName(ContactTab, NameOf(PhoneLeaf(i))) == Some(PhoneLeaf(i))
  {
    var name := NameOf(PhoneLeaf(i));
    NoDotInLeafNames(PhoneLeaf(i));
    ContainsNeedsChar(name, HoursPrefix, '.');
    var ds := DecimalString(i);
    assert StartsWith(name, PhonePrefix);
    assert name[|PhonePrefix|..] == ds + "]";
    DigitPrefixOf(ds, "]");
    DecimalRoundTrip(i);
  }

  /** The name the form renders for a leaf, typed on that leaf's tab, addresses exactly that leaf. */
  lemma NameRoundTrip(p: Path)
    ensures ParseName(TabOf(p), NameOf(p)) == Some(p)
  {
    match p
    case AboutLeaf(k) => AboutNameRoundTrip(k);
    case LocationLeaf(k) => LocationNameRoundTrip(k);
    case ContactLeaf(k) => ContactNameRoundTrip(k);
    case HoursLeaf(period, kind) => HoursNameRoundTrip(period, kind);
    case PhoneLeaf(i) => PhoneNameRoundTrip(i);
  }

  /**
   * `handleInputChange`: the edit lands in the active tab's half only; an
   * input name that addresses no leaf changes nothing.
   */
  function InputChange(info: Info, tab: Tab, name: string, value: string): (r: Info)
    ensures tab == AboutTab ==> r.contactInfo == info.contactInfo
    ensures tab == ContactTab ==> r.aboutUs == info.aboutUs
    ensures |r.contactInfo.phoneNumbers| == |info.contactInfo.phoneNumbers|
  {
    match ParseName(tab, name)
    case Some(p) => Update(info, p, value)
    case None => info
  }

  /**
   * Typing into the rendered input of a leaf sets that leaf and no other
   * (a phone number only when its index is inside the list).
   */
  lemma EditRenderedInput(info: Info, p: Path, value: string)
    ensures var r := InputChange(info, TabOf(p), NameOf(p), value);
      && Get(r, p) == (if p.PhoneLeaf? && p.index >= |info.contactInfo.phoneNumbers| then None else Some(value))
      && forall q :: q != p ==> Get(r, q) == Get(info, q)
  {
    NameRoundTrip(p);
  }

  /** Editing `phoneNumbers[i]` replaces exactly entry i. */
  lemma EditPhoneNumber(info: Info, i: nat, value: string)
    requires i < |info.contactInfo.phoneNumbers|
    ensures var r := InputChange(info, ContactTab, PhonePrefix + DecimalString(i) + "]", value);
      r == info.(contactInfo := info.contactInfo.(phoneNumbers := info.contactInfo.phoneNumbers[i := value]))
  {
    NameRoundTrip(PhoneLeaf(i));
  }

  // ------------------------------------------------------------ phone numbers

  /** `addPhoneNumber`: append an empty entry unless the list is full. */
  function AddPhone(info: Info): (r: Info)
    ensures r.aboutUs == info.aboutUs
    ensures r.contactInfo == info.contactInfo.(phoneNumbers := r.contactInfo.phoneNumbers)
    ensures |info.contactInfo.phoneNumbers| < MaxPhones ==>
      r.contactInfo.phoneNumbers == info.contactInfo.phoneNumbers + [""]
    ensures |info.contactInfo.phoneNumbers| >= MaxPhones ==> r == info
  {
    var phones := info.contactInfo.phoneNumbers;
    if |phones| < MaxPhones then info.(contactInfo := info.contactInfo.(phoneNumbers := phones + [""]))
    else info
  }

  /** `filter((_, i) => i !== index)`: drop the entry at `index`, if there is one. */
  function Without(s: seq<string>, index: int): (r: seq<string>)
    ensures 0 <= index < |s| ==> |r| == |s| - 1
    ensures 0 <= index < |s| ==> forall i :: 0 <= i < |r| ==> r[i] == s[if i < index then i else i + 1]
    ensures !(0 <= index < |s|) ==> r == s
  {
    if 0 <= index < |s| then s[..index] + s[index + 1..] else s
  }

  /** `removePhoneNumber`: drop entry `index` unless it is the only one. */
  function RemovePhone(info: Info, index: int): (r: Info)
    ensures r.aboutUs == info.aboutUs
    ensures r.contactInfo == info.contactInfo.(phoneNumbers := r.contactInfo.phoneNumbers)
    ensures |info.contactInfo.phoneNumbers| > 1 ==>
      r.contactInfo.phoneNumbers == Without(info.contactInfo.phoneNumbers, index)
    ensures |info.contactInfo.phoneNumbers| <= 1 ==> r == info
  {
    var phones := info.contactInfo.phoneNumbers;
    if |phones| > 1 then info.(contactInfo := info.contactInfo.(phoneNumbers := Without(phones, index)))
    else info
  }

  /** From 1 to 3 phone numbers, every edit keeps between 1 and 3. */
  lemma PhoneBoundsKept(info: Info, tab: Tab, name: string, value: string, index: int)
    requires PhonesInBounds(info)
    ensures PhonesInBounds(AddPhone(info))
    ensures PhonesInBounds(RemovePhone(info, index))
    ensures PhonesInBounds(InputChange(info, tab, name, value))
  {
  }

  // ------------------------------------------------------------ multipart bodies

  /** A file picked in the image input; its contents are not modelled. */
  datatype File = File(name: string)

  datatype FieldValue = Text(text: string) | Attachment(file: File)

  /** The field names the page appends to its multipart bodies. */
  datatype FormKey =
    | MissionKey | VisionKey | TitleKey | AddressKey | CityKey | CountryKey | TimezoneKey | ImageKey
    | EmailKey | EmailAppPasswordKey | PhoneNumbersKey
    | WeekdayFromKey | WeekdayToKey | WeekendFromKey | WeekendToKey
  {
    /** The name sent on the wire. */
    function Name(): string {
      match this
      case MissionKey => "mission"
      case VisionKey => "vision"
      case TitleKey => "title"
      case AddressKey => "address"
      case CityKey => "city"
      case CountryKey => "country"
      case TimezoneKey => "timezone"
      case ImageKey => "image"
      case EmailKey => "email"
      case EmailAppPasswordKey => "emailAppPassword"
      case PhoneNumbersKey => "phoneNumbers"
      case WeekdayFromKey => "weekdayFrom"
      case WeekdayToKey => "weekdayTo"
      case WeekendFromKey => "weekendFrom"
      case WeekendToKey => "weekendTo"
    }
  }

  /** The text fields of the "About us" half of a body. */
  predicate IsAboutKey(k: FormKey) {
    k.MissionKey? || k.VisionKey? || k.TitleKey? || k.AddressKey? || k.CityKey? || k.CountryKey? || k.TimezoneKey?
  }

  /** The fields of the "Contact" half of a body. */
  predicate IsContactKey(k: FormKey) {
    !IsAboutKey(k) && !k.ImageKey?
  }

  /** One `formData.append(key, value)`. */
  datatype Entry = Entry(key: FormKey, value: FieldValue)

  /** `formData.getAll(key)`: the values appended under `key`, in order. */
  function ValuesOf(body: seq<Entry>, key: FormKey): seq<FieldValue> {
    if body == [] then []
    else (if body[0].key == key then [body[0].value] else []) + ValuesOf(body[1..], key)
  }

  lemma {:induction false} ValuesOfAppend(a: seq<Entry>, b: seq<Entry>, key: FormKey)
    ensures ValuesOf(a + b, key) == ValuesOf(a, key) + ValuesOf(b, key)
  {
    if a != [] {
      ValuesOfAppend(a[1..], b, key);
      assert (a + b)[1..] == a[1..] + b;
    } else {
      assert a + b == b;
    }
  }

  lemma {:induction false} ValuesOfAbsent(body: seq<Entry>, key: FormKey)
    requires forall j :: 0 <= j < |body| ==> body[j].key != key
    ensures ValuesOf(body, key) == []
  {
    if body != [] {
      ValuesOfAbsent(body[1..], key);
    }
  }

  /** No key appended twice. */
  predicate DistinctKeys(body: seq<Entry>) {
    forall j, k :: 0 <= j < k < |body| ==> body[j].key != body[k].key
  }

  lemma {:induction false} ValuesOfDistinct(body: seq<Entry>, i: nat)
    requires DistinctKeys(body) && i < |body|
    ensures ValuesOf(body, body[i].key) == [body[i].value]
  {
    if i == 0 {
      ValuesOfAbsent(body[1..], body[0].key);
    } else {
      ValuesOfDistinct(body[1..], i - 1);
    }
  }

  function Texts(s: seq<string>): seq<FieldValue> {
    seq(|s|, i requires 0 <= i < |s| => Text(s[i]))
  }

  /** One `phoneNumbers` entry per number, in list order (the `forEach` of a save or restore). */
  function PhoneEntries(phones: seq<string>): seq<Entry> {
    seq(|phones|, i requires 0 <= i < |phones| => Entry(PhoneNumbersKey, Text(phones[i])))
  }

  lemma {:induction false} PhoneEntriesValues(phones: seq<string>, key: FormKey)
    ensures ValuesOf(PhoneEntries(phones), key) == if key == PhoneNumbersKey then Texts(phones) else []
  {
    if phones != [] {
      var n := |phones|;
      PhoneEntriesValues(phones[..n - 1], key);
      assert PhoneEntries(phones) == PhoneEntries(phones[..n - 1]) + [Entry(PhoneNumbersKey, Text(phones[n - 1]))];
      ValuesOfAppend(PhoneEntries(phones[..n - 1]), [Entry(PhoneNumbersKey, Text(phones[n - 1]))], key);
      assert Texts(phones) == Texts(phones[..n - 1]) + [Text(phones[n - 1])];
    }
  }

  function AboutEntries(a: AboutUs, image: Option<File>): seq<Entry> {
    [ Entry(MissionKey, Text(a.mission)),
      Entry(VisionKey, Text(a.vision)),
      Entry(TitleKey, Text(a.title)),
      Entry(AddressKey, Text(a.location.address)),
      Entry(CityKey, Text(a.location.city)),
      Entry(CountryKey, Text(a.location.country)),
      Entry(TimezoneKey, Text(a.location.timezone)) ]
    + (if image.Some? then [Entry(ImageKey, Attachment(image.value))] else [])
  }

  function HoursEntries(from1: string, to1: string, from2: string, to2: string): seq<Entry> {
    [ Entry(WeekdayFromKey, Text(from1)),
      Entry(WeekdayToKey, Text(to1)),
      Entry(WeekendFromKey, Text(from2)),
      Entry(WeekendToKey, Text(to2)) ]
  }

  function ContactEntries(c: ContactInfo): seq<Entry> {
    var h := c.availableHours;
    [Entry(EmailKey, Text(c.email)), Entry(EmailAppPasswordKey, Text(c.emailAppPassword))]
    + PhoneEntries(c.phoneNumbers)
    + HoursEntries(h.weekdays.from, h.weekdays.to, h.weekends.from, h.weekends.to)
  }

  /** The body a save posts: the active tab's half only. */
  function SubmitEntries(info: Info, tab: Tab, image: Option<File>): seq<Entry> {
    if tab == AboutTab then AboutEntries(info.aboutUs, image) else ContactEntries(info.contactInfo)
  }

  lemma AboutKeysDistinct(a: AboutUs, image: Option<File>)
    ensures DistinctKeys(AboutEntries(a, image))
  {
  }

  /** Reading a saved "About us" body back with `getAll` recovers every field once. */
  lemma AboutReadsBack(a: AboutUs, image: Option<File>)
    ensures var body := AboutEntries(a, image);
      && ValuesOf(body, MissionKey) == [Text(a.mission)]
      && ValuesOf(body, VisionKey) == [Text(a.vision)]
      && ValuesOf(body, TitleKey) == [Text(a.title)]
      && ValuesOf(body, AddressKey) == [Text(a.location.address)]
      && ValuesOf(body, CityKey) == [Text(a.location.city)]
      && ValuesOf(body, CountryKey) == [Text(a.location.country)]
      && ValuesOf(body, TimezoneKey) == [Text(a.location.timezone)]
  {
    var body := AboutEntries(a, image);
    AboutKeysDistinct(a, image);
    ValuesOfDistinct(body, 0);
    ValuesOfDistinct(body, 1);
    ValuesOfDistinct(body, 2);
    ValuesOfDistinct(body, 3);
    ValuesOfDistinct(body, 4);
    ValuesOfDistinct(body, 5);
    ValuesOfDistinct(body, 6);
  }

  /** An "About us" body carries the picked image, if any, and no contact field. */
  lemma AboutOnlyAbout(a: AboutUs, image: Option<File>)
    ensures ValuesOf(AboutEntries(a, image), ImageKey) == if image.Some? then [Attachment(image.value)] else []
    ensures forall k :: IsContactKey(k) ==> ValuesOf(AboutEntries(a, image), k) == []
  {
    var body := AboutEntries(a, image);
    if image.Some? {
      AboutKeysDistinct(a, image);
      ValuesOfDistinct(body, 7);
    } else {
      ValuesOfAbsent(body, ImageKey);
    }
    forall k | IsContactKey(k) ensures ValuesOf(body, k) == [] {
      ValuesOfAbsent(body, k);
    }
  }

  /** The contact body without its phone numbers. */
  function ContactFixedEntries(c: ContactInfo): seq<Entry> {
    var h := c.availableHours;
    [Entry(EmailKey, Text(c.email)), Entry(EmailAppPasswordKey, Text(c.emailAppPassword))]
    + HoursEntries(h.weekdays.from, h.weekdays.to, h.weekends.from, h.weekends.to)
  }

  /** The phone numbers sit among the fixed contact fields without disturbing them. */
  lemma ContactSplits(c: ContactInfo, key: FormKey)
    ensures ValuesOf(ContactEntries(c), key)
      == if key == PhoneNumbersKey then Texts(c.phoneNumbers) else ValuesOf(ContactFixedEntries(c), key)
  {
    var h := c.availableHours;
    var head := [Entry(EmailKey, Text(c.email)), Entry(EmailAppPasswordKey, Text(c.emailAppPassword))];
    var phones := PhoneEntries(c.phoneNumbers);
    var tail := HoursEntries(h.weekdays.from, h.weekdays.to, h.weekends.from, h.weekends.to);
    ValuesOfAppend(head + phones, tail, key);
    ValuesOfAppend(head, phones, key);
    ValuesOfAppend(head, tail, key);
    PhoneEntriesValues(c.phoneNumbers, key);
    if key == PhoneNumbersKey {
      ValuesOfAbsent(head, key);
      ValuesOfAbsent(tail, key);
    }
  }

  lemma ContactKeysDistinct(c: ContactInfo)
    ensures DistinctKeys(ContactFixedEntries(c))
  {
  }

  lemma FixedContactValues(c: ContactInfo)
    ensures var fixed := ContactFixedEntries(c);
      var h := c.availableHours;
      && ValuesOf(fixed, EmailKey) == [Text(c.email)]
      && ValuesOf(fixed, EmailAppPasswordKey) == [Text(c.emailAppPassword)]
      && ValuesOf(fixed, WeekdayFromKey) == [Text(h.weekdays.from)]
      && ValuesOf(fixed, WeekdayToKey) == [Text(h.weekdays.to)]
      && ValuesOf(fixed, WeekendFromKey) == [Text(h.weekends.from)]
      && ValuesOf(fixed, WeekendToKey) == [Text(h.weekends.to)]
  {
    var fixed := ContactFixedEntries(c);
    ContactKeysDistinct(c);
    ValuesOfDistinct(fixed, 0);
    ValuesOfDistinct(fixed, 1);
    ValuesOfDistinct(fixed, 2);
    ValuesOfDistinct(fixed, 3);
    ValuesOfDistinct(fixed, 4);
    ValuesOfDistinct(fixed, 5);
  }

  /** Reading a saved "Contact" body back with `getAll` recovers every field once and the phone numbers in order. */
  lemma ContactReadsBack(c: ContactInfo)
    ensures var body := ContactEntries(c);
      var h := c.availableHours;
      && ValuesOf(body, EmailKey) == [Text(c.email)]
      && ValuesOf(body, EmailAppPasswordKey) == [Text(c.emailAppPassword)]
      && ValuesOf(body, PhoneNumbersKey) == Texts(c.phoneNumbers)
      && ValuesOf(body, WeekdayFromKey) == [Text(h.weekdays.from)]
      && ValuesOf(body, WeekdayToKey) == [Text(h.weekdays.to)]
      && ValuesOf(body, WeekendFromKey) == [Text(h.weekends.from)]
      && ValuesOf(body, WeekendToKey) == [Text(h.weekends.to)]
  {
    FixedContactValues(c);
    ContactSplits(c, EmailKey);
    ContactSplits(c, EmailAppPasswordKey);
    ContactSplits(c, PhoneNumbersKey);
    ContactSplits(c, WeekdayFromKey);
    ContactSplits(c, WeekdayToKey);
    ContactSplits(c, WeekendFromKey);
    ContactSplits(c, WeekendToKey);
  }

  /** A "Contact" body carries no about field and no image. */
  lemma ContactOnlyContact(c: ContactInfo)
    ensures forall k :: !IsContactKey(k) ==> ValuesOf(ContactEntries(c), k) == []
  {
    forall k | !IsContactKey(k) ensures ValuesOf(ContactEntries(c), k) == [] {
      ContactSplits(c, k);
      ValuesOfAbsent(ContactFixedEntries(c), k);
    }
  }

  /** A save posts the active tab's half: what `getAll` finds in the body is that half and nothing else. */
  lemma SubmitReadsBack(info: Info, tab: Tab, image: Option<File>)
    ensures tab == AboutTab ==> forall k :: IsContactKey(k) ==> ValuesOf(SubmitEntries(info, tab, image), k) == []
    ensures tab == ContactTab ==> forall k :: !IsContactKey(k) ==> ValuesOf(SubmitEntries(info, tab, image), k) == []
    ensures tab == AboutTab ==> ValuesOf(SubmitEntries(info, tab, image), MissionKey) == [Text(info.aboutUs.mission)]
    ensures tab == ContactTab ==>
      ValuesOf(SubmitEntries(info, tab, image), PhoneNumbersKey) == Texts(info.contactInfo.phoneNumbers)
  {
    if tab == AboutTab {
      AboutReadsBack(info.aboutUs, image);
      AboutOnlyAbout(info.aboutUs, image);
    } else {
      ContactReadsBack(info.contactInfo);
      ContactOnlyContact(info.contactInfo);
    }
  }

  // ---------------------------------------------------------------- history

  datatype HistoryLocation = HistoryLocation(
    address: Option<string>, city: Option<string>, country: Option<string>, timezone: Option<string>)

  datatype HistoryAbout = HistoryAbout(
    mission: Option<string>, vision: Option<string>, title: Option<string>, location: Option<HistoryLocation>)

  datatype HistoryRange = HistoryRange(from: Option<string>, to: Option<string>)

  datatype HistoryHours = HistoryHours(weekdays: Option<HistoryRange>, weekends: Option<HistoryRange>)

  datatype HistoryContact = HistoryContact(
    email: Option<string>, phoneNumbers: Option<seq<string>>, availableHours: Option<HistoryHours>)

  /** A saved version as `/companyinfo/history` lists it: either half, and any field in it, may be missing. */
  datatype HistoryItem = HistoryItem(id: string, aboutUs: Option<HistoryAbout>, contactInfo: Option<HistoryContact>)

  /** `location?.<k>`. */
  function HistoryPlace(l: Option<HistoryLocation>, k: LocationKey): Option<string> {
    match l
    case None => None
    case Some(loc) =>
      match k
      case Address => loc.address
      case City => loc.city
      case Country => loc.country
      case Timezone => loc.timezone
  }

  /** `availableHours?.<period>?.<kind>`. */
  function HistoryTime(h: Option<HistoryHours>, p: Period, k: TimeKind): Option<string> {
    var range := match h
      case None => None
      case Some(hours) => if p == Weekdays then hours.weekdays else hours.weekends;
    match range
    case None => None
    case Some(r) => if k == From then r.from else r.to
  }

  /** The about fields a restore sends: mission, vision and title as they are, the location with `|| ""`. */
  function RestoredAbout(a: HistoryAbout): seq<Entry> {
    [ Entry(MissionKey, Text(Coerce(a.mission))),
      Entry(VisionKey, Text(Coerce(a.vision))),
      Entry(TitleKey, Text(Coerce(a.title))),
      Entry(AddressKey, Text(OrElse(HistoryPlace(a.location, Address), ""))),
      Entry(CityKey, Text(OrElse(HistoryPlace(a.location, City), ""))),
      Entry(CountryKey, Text(OrElse(HistoryPlace(a.location, Country), ""))),
      Entry(TimezoneKey, Text(OrElse(HistoryPlace(a.location, Timezone), ""))) ]
  }

  /** `phoneNumbers || [""]`: an array, even an empty one, is kept. */
  function RestoredPhones(c: HistoryContact): seq<string> {
    c.phoneNumbers.GetOr([""])
  }

  /** The contact fields a restore sends; it never sends `emailAppPassword`. */
  function RestoredContact(c: HistoryContact): seq<Entry> {
    var h := c.availableHours;
    [Entry(EmailKey, Text(OrElse(c.email, "")))]
    + PhoneEntries(RestoredPhones(c))
    + HoursEntries(
        OrElse(HistoryTime(h, Weekdays, From), "09:00"),
        OrElse(HistoryTime(h, Weekdays, To), "17:00"),
        OrElse(HistoryTime(h, Weekends, From), ""),
        OrElse(HistoryTime(h, Weekends, To), ""))
  }

  /** The body a restore posts: each half the history entry has. */
  function RestoreEntries(item: HistoryItem): seq<Entry> {
    (if item.aboutUs.Some? then RestoredAbout(item.aboutUs.value) else [])
    + (if item.contactInfo.Some? then RestoredContact(item.contactInfo.value) else [])
  }

  /** A contact half with nothing recorded restores to the initial contact values (without the password). */
  lemma RestoreDefaults(id: string)
    ensures RestoreEntries(HistoryItem(id, None, Some(HistoryContact(None, None, None))))
      == [Entry(EmailKey, Text(EmptyContact.email))]
         + PhoneEntries(EmptyContact.phoneNumbers)
         + HoursEntries(EmptyContact.availableHours.weekdays.from, EmptyContact.availableHours.weekdays.to,
                        EmptyContact.availableHours.weekends.from, EmptyContact.availableHours.weekends.to)
  {
  }

  /** A contact body without the password: an e-mail, the phone numbers and the hours. */
  lemma ContactWithoutSecretOmits(email: string, phones: seq<string>, hours: seq<Entry>, key: FormKey)
    requires key == EmailAppPasswordKey || key == ImageKey
    requires forall j :: 0 <= j < |hours| ==> hours[j].key != key
    ensures ValuesOf([Entry(EmailKey, Text(email))] + PhoneEntries(phones) + hours, key) == []
  {
    var head := [Entry(EmailKey, Text(email))];
    ValuesOfAppend(head + PhoneEntries(phones), hours, key);
    ValuesOfAppend(head, PhoneEntries(phones), key);
    PhoneEntriesValues(phones, key);
    ValuesOfAbsent(head, key);
    ValuesOfAbsent(hours, key);
  }

  /** Neither half of a restore body carries the password or an image. */
  lemma RestoredHalvesOmit(item: HistoryItem, key: FormKey)
    requires key == EmailAppPasswordKey || key == ImageKey
    ensures item.aboutUs.Some? ==> ValuesOf(RestoredAbout(item.aboutUs.value), key) == []
    ensures item.contactInfo.Some? ==> ValuesOf(RestoredContact(item.contactInfo.value), key) == []
  {
    if item.aboutUs.Some? {
      ValuesOfAbsent(RestoredAbout(item.aboutUs.value), key);
    }
    if item.contactInfo.Some? {
      var c := item.contactInfo.value;
      var h := c.availableHours;
      var hours := HoursEntries(
        OrElse(HistoryTime(h, Weekdays, From), "09:00"),
        OrElse(HistoryTime(h, Weekdays, To), "17:00"),
        OrElse(HistoryTime(h, Weekends, From), ""),
        OrElse(HistoryTime(h, Weekends, To), ""));
      ContactWithoutSecretOmits(OrElse(c.email, ""), RestoredPhones(c), hours, key);
    }
  }

  /** A restore never sends the e-mail app password or an image, whatever the history entry holds. */
  lemma RestoreOmitsSecretAndImage(item: HistoryItem)
    ensures ValuesOf(RestoreEntries(item), EmailAppPasswordKey) == []
    ensures ValuesOf(RestoreEntries(item), ImageKey) == []
  {
    var about := if item.aboutUs.Some? then RestoredAbout(item.aboutUs.value) else [];
    var contact := if item.contactInfo.Some? then RestoredContact(item.contactInfo.value) else [];
    RestoredHalvesOmit(item, EmailAppPasswordKey);
    RestoredHalvesOmit(item, ImageKey);
    ValuesOfAppend(about, contact, EmailAppPasswordKey);
    ValuesOfAppend(about, contact, ImageKey);
  }



  /** The history entry that records `info` in full. */
  function Snapshot(id: string, info: Info): HistoryItem {
    var a, c := info.aboutUs, info.contactInfo;
    var l, h := a.location, c.availableHours;
    HistoryItem(id,
      Some(HistoryAbout(Some(a.mission), Some(a.vision), Some(a.title),
        Some(HistoryLocation(Some(l.address), Some(l.city), Some(l.country), Some(l.timezone))))),
      Some(HistoryContact(Some(c.email), Some(c.phoneNumbers),
        Some(HistoryHours(Some(HistoryRange(Some(h.weekdays.from), Some(h.weekdays.to))),
                          Some(HistoryRange(Some(h.weekends.from), Some(h.weekends.to))))))))
  }

  /**
   * Restoring a full record sends both halves as a save of each tab would,
   * without the image and the password, except that an empty weekday time is
   * sent as its default ("09:00" or "17:00").
   */
  lemma RestoreSnapshot(id: string, info: Info)
    ensures var c := info.contactInfo;
      var h := c.availableHours;
      RestoreEntries(Snapshot(id, info))
        == AboutEntries(info.aboutUs, None)
           + [Entry(EmailKey, Text(c.email))]
           + PhoneEntries(c.phoneNumbers)
           + HoursEntries(if h.weekdays.from == "" then "09:00" else h.weekdays.from,
                          if h.weekdays.to == "" then "17:00" else h.weekdays.to,
                          h.weekends.from, h.weekends.to)
  {
    var item := Snapshot(id, info);
    SnapshotAboutRestored(id, info);
    SnapshotContactRestored(id, info);
    assert RestoreEntries(item) == RestoredAbout(item.aboutUs.value) + RestoredContact(item.contactInfo.value);
  }

  lemma SnapshotAboutRestored(id: string, info: Info)
    ensures RestoredAbout(Snapshot(id, info).aboutUs.value) == AboutEntries(info.aboutUs, None)
  {
    var a := Snapshot(id, info).aboutUs.value;
    var l := info.aboutUs.location;
    assert HistoryPlace(a.location, Address) == Some(l.address);
    assert HistoryPlace(a.location, City) == Some(l.city);
    assert HistoryPlace(a.location, Country) == Some(l.country);
    assert HistoryPlace(a.location, Timezone) == Some(l.timezone);
  }

  lemma SnapshotContactRestored(id: string, info: Info)
    ensures var c := info.contactInfo;
      var h := c.availableHours;
      RestoredContact(Snapshot(id, info).contactInfo.value)
        == [Entry(EmailKey, Text(c.email))]
           + PhoneEntries(c.phoneNumbers)
           + HoursEntries(if h.weekdays.from == "" then "09:00" else h.weekdays.from,
                          if h.weekdays.to == "" then "17:00" else h.weekdays.to,
                          h.weekends.from, h.weekends.to)
  {
    var hc := Snapshot(id, info).contactInfo.value;
    var h := info.contactInfo.availableHours;
    assert RestoredPhones(hc) == info.contactInfo.phoneNumbers;
    assert HistoryTime(hc.availableHours, Weekdays, From) == Some(h.weekdays.from);
    assert HistoryTime(hc.availableHours, Weekdays, To) == Some(h.weekdays.to);
    assert HistoryTime(hc.availableHours, Weekends, From) == Some(h.weekends.from);
    assert HistoryTime(hc.availableHours, Weekends, To) == Some(h.weekends.to);
  }


  // ------------------------------------------------------------ body builders

  /** The `forEach` that appends one `phoneNumbers` entry per number. */
  method AppendPhones(body: seq<Entry>, phones: seq<string>) returns (r: seq<Entry>)
    ensures r == body + PhoneEntries(phones)
  {
    r := body;
    var i := 0;
    while i < |phones|
      invariant 0 <= i <= |phones|
      invariant r == body + PhoneEntries(phones[..i])
    {
      assert PhoneEntries(phones[..i + 1]) == PhoneEntries(phones[..i]) + [Entry(PhoneNumbersKey, Text(phones[i]))];
      r := r + [Entry(PhoneNumbersKey, Text(phones[i]))];
      i := i + 1;
    }
    assert phones[..i] == phones;
  }

  /** `handleSubmit`'s appends, in order. */
  method BuildSubmitBody(info: Info, tab: Tab, image: Option<File>) returns (body: seq<Entry>)
    ensures body == SubmitEntries(info, tab, image)
  {
    if tab == AboutTab {
      body := AboutEntries(info.aboutUs, None);
      if image.Some? {
        body := body + [Entry(ImageKey, Attachment(image.value))];
      }
    } else {
      var c := info.contactInfo;
      var h := c.availableHours;
      body := [Entry(EmailKey, Text(c.email)), Entry(EmailAppPasswordKey, Text(c.emailAppPassword))];
      body := AppendPhones(body, c.phoneNumbers);
      body := body + HoursEntries(h.weekdays.from, h.weekdays.to, h.weekends.from, h.weekends.to);
    }
  }

  /** `restoreFromHistory`'s about appends. */
  method AppendRestoredAbout(body: seq<Entry>, a: HistoryAbout) returns (r: seq<Entry>)
    ensures r == body + RestoredAbout(a)
  {
    r := body;
    r := r + [Entry(MissionKey, Text(Coerce(a.mission)))];
    r := r + [Entry(VisionKey, Text(Coerce(a.vision)))];
    r := r + [Entry(TitleKey, Text(Coerce(a.title)))];
    r := r + [Entry(AddressKey, Text(OrElse(HistoryPlace(a.location, Address), "")))];
    r := r + [Entry(CityKey, Text(OrElse(HistoryPlace(a.location, City), "")))];
    r := r + [Entry(CountryKey, Text(OrElse(HistoryPlace(a.location, Country), "")))];
    r := r + [Entry(TimezoneKey, Text(OrElse(HistoryPlace(a.location, Timezone), "")))];
  }

  /** `restoreFromHistory`'s contact appends, the phone numbers by the `forEach`. */
  method AppendRestoredContact(body: seq<Entry>, c: HistoryContact) returns (r: seq<Entry>)
    ensures r == body + RestoredContact(c)
  {
    var h := c.availableHours;
    r := body + [Entry(EmailKey, Text(OrElse(c.email, "")))];
    r := AppendPhones(r, c.phoneNumbers.GetOr([""]));
    r := r + HoursEntries(
      OrElse(HistoryTime(h, Weekdays, From), "09:00"),
      OrElse(HistoryTime(h, Weekdays, To), "17:00"),
      OrElse(HistoryTime(h, Weekends, From), ""),
      OrElse(HistoryTime(h, Weekends, To), ""));
  }

  /** `restoreFromHistory`'s appends, in order. */
  method BuildRestoreBody(item: HistoryItem) returns (body: seq<Entry>)
    ensures body == RestoreEntries(item)
  {
    body := [];
    if item.aboutUs.Some? {
      body := AppendRestoredAbout(body, item.aboutUs.value);
    }
    if item.contactInfo.Some? {
      body := AppendRestoredContact(body, item.contactInfo.value);
    }
  }

  // ------------------------------------------------------------ the component

  /** What `Promise.all` of the about and contact requests yields: `res.data.data` of each. */
  datatype Sections = Sections(aboutUs: Option<AboutUs>, contactInfo: Option<ContactInfo>)

  /** The component's state, field by field. */
  datatype Screen = Screen(
    companyInfo: Info,
    loading: bool,
    error: Option<string>,
    imageFile: Option<File>,
    previewImage: string,
    history: seq<HistoryItem>,
    showHistory: bool,
    activeTab: Tab,
    editMode: bool)

  class CompanyInfoDashboard {
    /** The server's base URL, prefixed to stored image paths. */
    const baseUrl: string

    var companyInfo: Info
    var loading: bool
    var error: Option<string>
    var imageFile: Option<File>
    var previewImage: string
    var history: seq<HistoryItem>
    var showHistory: bool
    var activeTab: Tab
    var editMode: bool

    ghost function State(): Screen
      reads this
    {
      Screen(companyInfo, loading, error, imageFile, previewImage, history, showHistory, activeTab, editMode)
    }

    constructor (baseUrl: string)
      ensures this.baseUrl == baseUrl
      ensures State() == Screen(InitialInfo, true, None, None, "", [], false, AboutTab, false)
    {
      this.baseUrl := baseUrl;
      companyInfo := InitialInfo;
      loading := true;
      error := None;
      imageFile := None;
      previewImage := "";
      history := [];
      showHistory := false;
      activeTab := AboutTab;
      editMode := false;
    }

    /** `fetchCompanyInfo`: a missing half falls back to its initial value; loading ends either way. */
    method FetchCompanyInfo(result: Outcome<Sections>)
      modifies this
      ensures result.Ok? ==>
        var s := result.value;
        var about := s.aboutUs.GetOr(EmptyAbout);
        State() == old(State()).(
          companyInfo := Info(about, s.contactInfo.GetOr(EmptyContact)),
          previewImage := if s.aboutUs.Some? && about.imageUrl != "" then baseUrl + about.imageUrl
                          else old(previewImage),
          loading := false)
      ensures result.Threw? ==>
        State() == old(State()).(error := Some(result.error.message), loading := false)
    {
      match result
      case Ok(s) =>
        companyInfo := Info(s.aboutUs.GetOr(EmptyAbout), s.contactInfo.GetOr(EmptyContact));
        if s.aboutUs.Some? && s.aboutUs.value.imageUrl != "" {
          previewImage := baseUrl + s.aboutUs.value.imageUrl;
        }
        loading := false;
      case Threw(e) =>
        error := Some(e.message);
        loading := false;
    }

    /** `fetchHistory`: a failure is only logged. */
    method FetchHistory(result: Outcome<seq<HistoryItem>>)
      modifies this
      ensures result.Ok? ==> State() == old(State()).(history := result.value)
      ensures result.Threw? ==> State() == old(State())
    {
      if result.Ok? {
        history := result.value;
      }
    }

    method HandleInputChange(name: string, value: string)
      modifies this
      ensures State() == old(State()).(companyInfo := InputChange(old(companyInfo), activeTab, name, value))
    {
      companyInfo := InputChange(companyInfo, activeTab, name, value);
    }

    /** `handleFileChange` without the preview: `files[0]`, if any, is kept for the next save. */
    method SelectImage(file: Option<File>)
      modifies this
      ensures file.Some? ==> State() == old(State()).(imageFile := file)
      ensures file.None? ==> State() == old(State())
    {
      if file.Some? {
        imageFile := file;
      }
    }

    method AddPhoneNumber()
      modifies this
      ensures State() == old(State()).(companyInfo := AddPhone(old(companyInfo)))
    {
      companyInfo := AddPhone(companyInfo);
    }

    method RemovePhoneNumber(index: int)
      modifies this
      ensures State() == old(State()).(companyInfo := RemovePhone(old(companyInfo), index))
    {
      companyInfo := RemovePhone(companyInfo, index);
    }

    method SetActiveTab(tab: Tab)
      modifies this
      ensures State() == old(State()).(activeTab := tab)
    {
      activeTab := tab;
    }

    method ToggleHistory()
      modifies this
      ensures State() == old(State()).(showHistory := !old(showHistory))
    {
      showHistory := !showHistory;
    }

    /**
     * `handleSubmit`: posts the active half. On success the image is dropped,
     * edit mode ends and `refresh` says the record and the history are fetched
     * again; on failure only the error changes.
     */
    method HandleSubmit(posted: Outcome<()>) returns (body: seq<Entry>, refresh: bool)
      modifies this
      ensures body == SubmitEntries(old(companyInfo), old(activeTab), old(imageFile))
      ensures refresh == posted.Ok?
      ensures posted.Ok? ==> State() == old(State()).(imageFile := None, editMode := false)
      ensures posted.Threw? ==> State() == old(State()).(error := Some(posted.error.message))
    {
      body := BuildSubmitBody(companyInfo, activeTab, imageFile);
      if posted.Ok? {
        refresh := true;
        imageFile := None;
        editMode := false;
      } else {
        refresh := false;
        error := Some(posted.error.message);
      }
    }

    /**
     * `restoreFromHistory`: nothing is sent unless the user confirms; on
     * success the history panel closes and both fetches run again.
     */
    method RestoreFromHistory(item: HistoryItem, confirmed: bool, posted: Outcome<()>)
      returns (sent: Option<seq<Entry>>, refresh: bool)
      modifies this
      ensures sent == if confirmed then Some(RestoreEntries(item)) else None
      ensures refresh == (confirmed && posted.Ok?)
      ensures !confirmed ==> State() == old(State())
      ensures confirmed && posted.Ok? ==> State() == old(State()).(showHistory := false)
      ensures confirmed && posted.Threw? ==> State() == old(State()).(error := Some(posted.error.message))
    {
      sent, refresh := None, false;
      if confirmed {
        var body := BuildRestoreBody(item);
        sent := Some(body);
        if posted.Ok? {
          refresh := true;
          showHistory := false;
        } else {
          error := Some(posted.error.message);
        }
      }
    }

    /** `deleteHistoryItem`: on confirmation deletes `/companyinfo/history/{id}` and refetches the history. */
    method DeleteHistoryItem(id: string, confirmed: bool, deleted: Outcome<()>)
      returns (target: Option<string>, refresh: bool)
      modifies this
      ensures target == if confirmed then Some("/companyinfo/history/" + id) else None
      ensures refresh == (confirmed && deleted.Ok?)
      ensures confirmed && deleted.Threw? ==> State() == old(State()).(error := Some(deleted.error.message))
      ensures !(confirmed && deleted.Threw?) ==> State() == old(State())
    {
      target, refresh := None, false;
      if confirmed {
        target := Some("/companyinfo/history/" + id);
        if deleted.Ok? {
          refresh := true;
        } else {
          error := Some(deleted.error.message);
        }
      }
    }

    /** `toggleEditMode`: entering edit mode drops a picked image and shows the stored one again. */
    method ToggleEditMode()
      modifies this
      ensures editMode == !old(editMode)
      ensures old(editMode) ==> State() == old(State()).(editMode := false)
      ensures !old(editMode) ==>
        var url := old(companyInfo).aboutUs.imageUrl;
        State() == old(State()).(
          editMode := true,
          imageFile := None,
          previewImage := if url != "" then baseUrl + url else old(previewImage))
    {
      var wasEditing := editMode;
      editMode := !editMode;
      if !wasEditing {
        imageFile := None;
        if companyInfo.aboutUs.imageUrl != "" {
          previewImage := baseUrl + companyInfo.aboutUs.imageUrl;
        }
      }
    }
  }
}
