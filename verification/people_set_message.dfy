/**
 The layout of the PeopleSet ("engage" with `$set`) message. The builder's
 source is not part of this model; the layout is the one the builder's unit
 test fixes:
 - the envelope fields go to the top level under `$`-prefixed wire keys, with
   `$time` as integer Unix seconds;
 - the profile fields go into the nested `$set` object under `$`-prefixed
   wire keys, with `$created` as an ISO 8601 local date-time string;
 - every other property goes into `$set` under its own key, with its value
   unchanged.
 Token and distinct id are required.
 */
module PeopleSetMessage {
  import opened Results
  import opened OrderedMap
  import opened Dates
  import opened Values
  import opened PropertyNames
  import opened MessageBuilderBase

  const SetModifier := "$set"

  const EnvelopeWireKeys: set<string> := {"$token", "$distinct_id", "$ip", "$time", "$ignore_time"}
  const ProfileWireKeys: set<string> :=
    {"$first_name", "$last_name", "$name", "$created", "$email", "$phone"}

  predicate IsEnvelopeName(k: string)
  {
    k in {Token, DistinctId, Ip, Time, IgnoreTime}
  }

  predicate IsProfileName(k: string)
  {
    k in {FirstName, LastName, Name, Created, Email, Phone}
  }

  /** A property that is neither an envelope nor a profile field: a custom one. */
  predicate IsCustomName(k: string)
  {
    !IsEnvelopeName(k) && !IsProfileName(k)
  }

  /** The wire key a profile field is written under inside `$set`. */
  function ProfileWireKey(k: string): (w: string)
    requires IsProfileName(k)
    ensures w in ProfileWireKeys
  {
    if k == FirstName then "$first_name"
    else if k == LastName then "$last_name"
    else if k == Name then "$name"
    else if k == Created then "$created"
    else if k == Email then "$email"
    else "$phone"
  }

  /** Top-level `$time`: a date-time becomes integer seconds since the Unix epoch. */
  function EnvelopeValue(name: string, v: Value): (r: Value)
    ensures name == Time && v.Date? ==> r == Num(UnixSeconds(v.d))
    ensures !(name == Time && v.Date?) ==> r == v
  {
    if name == Time && v.Date? then Num(UnixSeconds(v.d)) else v
  }

  /**
   Profile fields: a date-time becomes an ISO 8601 local date-time string
   that reads back as that date-time; any other value is kept.
   */
  function ProfileValue(v: Value): (r: Value)
    ensures v.Date? ==> r.Str? && IsoShaped(r.s) && ParseIsoDateTime(r.s) == Some(v.d)
    ensures !v.Date? ==> r == v
  {
    if v.Date? then
      IsoDateTimeRoundTrip(v.d);
      Str(IsoDateTime(v.d))
    else v
  }

  /** What one property of the data writes into `$set`: nothing for an envelope field. */
  function SetEntry(k: string, v: Value): Entries<Value>
  {
    if IsEnvelopeName(k) then []
    else if IsProfileName(k) then [(ProfileWireKey(k), ProfileValue(v))]
    else [(k, v)]
  }

  /** The writes into `$set`, in the order of the message data. */
  function SetEntries(data: Entries<Value>): Entries<Value>
  {
    if |data| == 0 then []
    else SetEntry(data[0].0, data[0].1) + SetEntries(data[1..])
  }

  /** The `$set` object. */
  function SetObject(data: Entries<Value>): (r: Entries<Value>)
    ensures UniqueKeys(r)
  {
    SetAll([], SetEntries(data))
  }

  /** 1 for a condition that holds, 0 otherwise. */
  function Holds(b: bool): nat
  {
    if b then 1 else 0
  }

  /** An optional envelope field: written to `top` when the data holds it. */
  function SetOptionalField(top: Entries<Value>, data: Entries<Value>, name: string, wireKey: string)
    : (r: Entries<Value>)
    ensures KeySet(r) <= KeySet(top) + {wireKey}
    ensures UniqueKeys(top) ==> UniqueKeys(r)
    ensures Find(r, wireKey)
         == match Find(data, name)
            case None => Find(top, wireKey)
            case Some(v) => Some(EnvelopeValue(name, v))
    ensures forall k :: k != wireKey ==> Find(r, k) == Find(top, k)
  {
    match Find(data, name)
    case None => top
    case Some(v) => Set(top, wireKey, EnvelopeValue(name, v))
  }

  /** Writing an optional field to a container without its wire key grows it by one exactly when the data holds the field. */
  lemma OptionalFieldSize(top: Entries<Value>, data: Entries<Value>, name: string, wireKey: string)
    requires wireKey !in KeySet(top)
    ensures |SetOptionalField(top, data, name, wireKey)| == |top| + Holds(Find(data, name).Some?)
    ensures KeySet(SetOptionalField(top, data, name, wireKey))
         == KeySet(top) + (if Find(data, name).Some? then {wireKey} else {})
  {
  }

  /**
   The top-level envelope: token and distinct id, then ip, time and
   ignore-time when the data holds them.
   */
  function Envelope(data: Entries<Value>, token: Value, distinctId: Value): (r: Entries<Value>)
    ensures UniqueKeys(r)
    ensures KeySet(r) <= EnvelopeWireKeys
    ensures Find(r, "$token") == Some(token)
    ensures Find(r, "$distinct_id") == Some(distinctId)
    ensures Find(r, "$ip") == (if Find(data, Ip).Some? then Some(Find(data, Ip).value) else None)
    ensures Find(r, "$ignore_time")
         == (if Find(data, IgnoreTime).Some? then Some(Find(data, IgnoreTime).value) else None)
    ensures Find(r, "$time")
         == (if Find(data, Time).Some? then Some(EnvelopeValue(Time, Find(data, Time).value)) else None)
  {
    var fixed := Set(Set([], "$token", token), "$distinct_id", distinctId);
    var withIp := SetOptionalField(fixed, data, Ip, "$ip");
    var withTime := SetOptionalField(withIp, data, Time, "$time");
    SetOptionalField(withTime, data, IgnoreTime, "$ignore_time")
  }

  /** The envelope holds token and distinct id plus one entry per optional field the data holds. */
  lemma EnvelopeSize(data: Entries<Value>, token: Value, distinctId: Value)
    ensures |Envelope(data, token, distinctId)|
         == 2 + Holds(Find(data, Ip).Some?) + Holds(Find(data, Time).Some?)
              + Holds(Find(data, IgnoreTime).Some?)
  {
    var fixed := Set(Set([], "$token", token), "$distinct_id", distinctId);
    assert |fixed| == 2 && KeySet(fixed) == {"$token", "$distinct_id"};
    OptionalFieldSize(fixed, data, Ip, "$ip");
    var withIp := SetOptionalField(fixed, data, Ip, "$ip");
    OptionalFieldSize(withIp, data, Time, "$time");
    var withTime := SetOptionalField(withIp, data, Time, "$time");
    OptionalFieldSize(withTime, data, IgnoreTime, "$ignore_time");
  }

  /** The PeopleSet message object for the given message data. */
  function BuildPeopleSet(data: Entries<Value>): (r: Result<Value>)
    ensures r.Ok? <==> Present(data, Token) && Present(data, DistinctId)
    ensures !Present(data, Token) ==> r == Fail(MissingRequiredProperty(Token))
    ensures Present(data, Token) && !Present(data, DistinctId)
        ==> r == Fail(MissingRequiredProperty(DistinctId))
  {
    var token :- RequiredProperty(data, Token);
    var distinctId :- RequiredProperty(data, DistinctId);
    Ok(Dict(Set(Envelope(data, token, distinctId), SetModifier, Dict(SetObject(data)))))
  }

  /** The wire keys of the profile fields are pairwise distinct. */
  lemma ProfileWireKeyInjective(p: string, q: string)
    requires IsProfileName(p) && IsProfileName(q) && p != q
    ensures ProfileWireKey(p) != ProfileWireKey(q)
  {
  }

  /** `$set` receives no envelope field and only custom keys or profile wire keys. */
  lemma {:induction false} SetEntriesKeys(data: Entries<Value>, k: string)
    ensures k in KeySet(SetEntries(data))
        ==> (IsCustomName(k) && k in KeySet(data)) || k in ProfileWireKeys
    decreases |data|
  {
    if |data| > 0 {
      SetEntriesKeys(data[1..], k);
      var (k0, v0) := data[0];
      var head := SetEntry(k0, v0);
      KeySetAppend(head, SetEntries(data[1..]));
    }
  }

  /** A custom property's last write in the data is its last write into `$set`. */
  lemma {:induction false} SetEntriesCustom(data: Entries<Value>, k: string)
    requires IsCustomName(k) && k !in ProfileWireKeys
    ensures LastValue(SetEntries(data), k) == LastValue(data, k)
    decreases |data|
  {
    if |data| > 0 {
      SetEntriesCustom(data[1..], k);
      var (k0, v0) := data[0];
      var head := SetEntry(k0, v0);
      LastValueAppend(head, SetEntries(data[1..]), k);
    }
  }

  /** A profile field's last write in the data lands in `$set` under its wire key. */
  lemma {:induction false} SetEntriesProfile(data: Entries<Value>, p: string)
    requires IsProfileName(p) && ProfileWireKey(p) !in KeySet(data)
    ensures LastValue(SetEntries(data), ProfileWireKey(p))
         == match LastValue(data, p)
            case None => None
            case Some(v) => Some(ProfileValue(v))
    decreases |data|
  {
    if |data| > 0 {
      SetEntriesProfile(data[1..], p);
      var (k0, v0) := data[0];
      var head := SetEntry(k0, v0);
      LastValueAppend(head, SetEntries(data[1..]), ProfileWireKey(p));
      if IsProfileName(k0) && k0 != p {
        ProfileWireKeyInjective(k0, p);
      }
    }
  }

  /**
   The contents of `$set`: each profile field present in the data under its
   wire key (a date rendered as ISO 8601), each custom property under its own
   key with its value unchanged, and no envelope field.
   */
  lemma SetObjectContents(data: Entries<Value>, k: string)
    requires UniqueKeys(data)
    requires forall w :: w in ProfileWireKeys ==> w !in KeySet(data)
    ensures IsEnvelopeName(k) ==> Find(SetObject(data), k) == None
    ensures IsCustomName(k) && k !in ProfileWireKeys ==> Find(SetObject(data), k) == Find(data, k)
    ensures IsProfileName(k) ==>
      Find(SetObject(data), ProfileWireKey(k))
        == match Find(data, k)
           case None => None
           case Some(v) => Some(ProfileValue(v))
    ensures k in KeySet(SetObject(data)) ==> (IsCustomName(k) && k in KeySet(data)) || k in ProfileWireKeys
  {
    var es := SetEntries(data);
    SetAllFind([], es, k);
    SetEntriesKeys(data, k);
    LastValueUnique(data, k);
    if IsCustomName(k) && k !in ProfileWireKeys {
      SetEntriesCustom(data, k);
    }
    if IsProfileName(k) {
      SetAllFind([], es, ProfileWireKey(k));
      SetEntriesProfile(data, k);
    }
  }

  /** Every non-envelope property the data holds lands in `$set`, under its wire key when it is a profile field. */
  lemma SetObjectHas(data: Entries<Value>, k: string)
    requires UniqueKeys(data)
    requires forall w :: w in ProfileWireKeys ==> w !in KeySet(data)
    requires k in KeySet(data) && !IsEnvelopeName(k)
    ensures (if IsProfileName(k) then ProfileWireKey(k) else k) in KeySet(SetObject(data))
  {
    SetObjectContents(data, k);
  }

  /** Envelope wire keys, `$set` and profile wire keys are three separate name spaces. */
  lemma WireKeysDisjoint()
    ensures (EnvelopeWireKeys + {SetModifier}) !! ProfileWireKeys
  {
    forall w | w in ProfileWireKeys
      ensures w !in EnvelopeWireKeys + {SetModifier}
    {
    }
  }

  /**
   The top level of a built PeopleSet message: only envelope fields and
   `$set`, each key once; no profile field.
   */
  lemma PeopleSetTopLevelKeys(data: Entries<Value>, top: Entries<Value>)
    requires BuildPeopleSet(data) == Ok(Dict(top))
    ensures UniqueKeys(top)
    ensures {"$token", "$distinct_id", SetModifier} <= KeySet(top)
    ensures KeySet(top) <= EnvelopeWireKeys + {SetModifier}
    ensures KeySet(top) !! ProfileWireKeys
  {
    WireKeysDisjoint();
  }

  /**
   The top-level values: token, distinct id, ip and ignore-time pass through
   unchanged, a date-time `$time` becomes Unix seconds, and `$set` holds the
   object of profile and custom properties.
   */
  lemma PeopleSetTopLevelValues(data: Entries<Value>, top: Entries<Value>)
    requires BuildPeopleSet(data) == Ok(Dict(top))
    ensures Find(top, "$token") == Find(data, Token)
    ensures Find(top, "$distinct_id") == Find(data, DistinctId)
    ensures Find(top, "$ip") == Find(data, Ip)
    ensures Find(top, "$ignore_time") == Find(data, IgnoreTime)
    ensures Find(top, "$time")
         == match Find(data, Time)
            case None => None
            case Some(v) => Some(EnvelopeValue(Time, v))
    ensures Find(top, SetModifier) == Some(Dict(SetObject(data)))
  {
    var envelope := Envelope(data, Find(data, Token).value, Find(data, DistinctId).value);
    assert top == Set(envelope, SetModifier, Dict(SetObject(data)));
  }


  /**
   The size of the top level: token, distinct id and `$set`, plus one entry
   for each optional envelope field the data holds.
   */
  lemma PeopleSetTopLevelSize(data: Entries<Value>, top: Entries<Value>)
    requires BuildPeopleSet(data) == Ok(Dict(top))
    ensures |top| == 3 + Holds(Find(data, Ip).Some?) + Holds(Find(data, Time).Some?)
                       + Holds(Find(data, IgnoreTime).Some?)
  {
    var envelope := Envelope(data, Find(data, Token).value, Find(data, DistinctId).value);
    EnvelopeSize(data, Find(data, Token).value, Find(data, DistinctId).value);
    assert SetModifier !in EnvelopeWireKeys;
    assert top == Set(envelope, SetModifier, Dict(SetObject(data)));
  }


  /** The unit test's thirteen `SetProperty` calls, in order. */
  const UnitTestWrites: Entries<Value> := [
    (Token, Str("aa11qq")),
    (DistinctId, Str("123")),
    (Ip, Str("111.111.111.111")),
    (Time, Date(DateTime(2013, 9, 26, 22, 33, 44))),
    (IgnoreTime, Bool(true)),
    (FirstName, Str("Darth")),
    (LastName, Str("Vader")),
    (Name, Str("Darth Vader")),
    (Created, Date(DateTime(2013, 5, 12, 11, 10, 9))),
    (Email, Str("darth.vader@mail.com")),
    (Phone, Str("123456")),
    ("TestProp1", Str("test 1")),
    ("TestProp2", Num(6))]

  /** The message data the unit test builds from: its writes applied to an empty container. */
  function UnitTestData(): Entries<Value>
  {
    SetAll([], UnitTestWrites)
  }

  lemma UnitTestWritesDistinct()
    ensures forall i, j :: 0 <= i < j < |UnitTestWrites| ==> UnitTestWrites[i].0 != UnitTestWrites[j].0
    ensures UniqueKeys(UnitTestWrites)
  {
    UniqueKeysByIndex(UnitTestWrites);
  }

  /** The thirteen names are distinct, so the writes simply append. */
  lemma UnitTestDataIsWrites()
    ensures UnitTestData() == UnitTestWrites
    ensures UniqueKeys(UnitTestData())
  {
    UnitTestWritesDistinct();
    SetAllFresh([], UnitTestWrites);
    assert [] + UnitTestWrites == UnitTestWrites;
  }

  /** Every lookup in the unit test's data finds its write. */
  lemma UnitTestDataContents()
    ensures forall i :: 0 <= i < |UnitTestWrites| ==>
      Find(UnitTestData(), UnitTestWrites[i].0) == Some(UnitTestWrites[i].1)
  {
    var w := UnitTestWrites;
    UnitTestDataIsWrites();
    forall i | 0 <= i < |w|
      ensures Find(w, w[i].0) == Some(w[i].1)
    {
      FindByIndex(w, i);
    }
  }

  const UnitTestNames: set<string> :=
    {Token, DistinctId, Ip, Time, IgnoreTime, FirstName, LastName, Name, Created, Email, Phone,
     "TestProp1", "TestProp2"}

  /** Each of the unit test's writes uses one of its thirteen names. */
  lemma UnitTestWriteNames()
    ensures forall i :: 0 <= i < |UnitTestWrites| ==> UnitTestWrites[i].0 in UnitTestNames
  {
  }

  /** The unit test's data holds no name besides the thirteen it writes. */
  lemma UnitTestDataKeys(k: string)
    ensures k in KeySet(UnitTestData()) ==> k in UnitTestNames
  {
    UnitTestDataIsWrites();
    UnitTestWriteNames();
    KeySetWithin(UnitTestWrites, UnitTestNames);
  }

  /** What the unit test's lookups find: each of its thirteen writes. */
  lemma UnitTestFinds()
    ensures Find(UnitTestData(), Token) == Some(Str("aa11qq"))
    ensures Find(UnitTestData(), DistinctId) == Some(Str("123"))
    ensures Find(UnitTestData(), Ip) == Some(Str("111.111.111.111"))
    ensures Find(UnitTestData(), Time) == Some(Date(DateTime(2013, 9, 26, 22, 33, 44)))
    ensures Find(UnitTestData(), IgnoreTime) == Some(Bool(true))
    ensures Find(UnitTestData(), FirstName) == Some(Str("Darth"))
    ensures Find(UnitTestData(), LastName) == Some(Str("Vader"))
    ensures Find(UnitTestData(), Name) == Some(Str("Darth Vader"))
    ensures Find(UnitTestData(), Created) == Some(Date(DateTime(2013, 5, 12, 11, 10, 9)))
    ensures Find(UnitTestData(), Email) == Some(Str("darth.vader@mail.com"))
    ensures Find(UnitTestData(), Phone) == Some(Str("123456"))
    ensures Find(UnitTestData(), "TestProp1") == Some(Str("test 1"))
    ensures Find(UnitTestData(), "TestProp2") == Some(Num(6))
  {
    var w := UnitTestWrites;
    UnitTestDataContents();
    assert w[0].0 == Token && w[1].0 == DistinctId && w[2].0 == Ip;
    assert w[3].0 == Time && w[4].0 == IgnoreTime && w[5].0 == FirstName;
    assert w[6].0 == LastName && w[7].0 == Name && w[8].0 == Created;
    assert w[9].0 == Email && w[10].0 == Phone && w[11].0 == "TestProp1";
    assert w[12].0 == "TestProp2";
  }

  /**
   The unit test's expectations on the top level, for any message data whose
   envelope lookups find what the test writes: the message builds, with six
   keys holding the envelope values, `$time` being 1380234824.
   */
  lemma PeopleSetTestEnvelope(data: Entries<Value>)
    requires Find(data, Token) == Some(Str("aa11qq"))
    requires Find(data, DistinctId) == Some(Str("123"))
    requires Find(data, Ip) == Some(Str("111.111.111.111"))
    requires Find(data, Time) == Some(Date(DateTime(2013, 9, 26, 22, 33, 44)))
    requires Find(data, IgnoreTime) == Some(Bool(true))
    ensures BuildPeopleSet(data).Ok?
    ensures var top := BuildPeopleSet(data).value.entries;
      && |top| == 6
      && Find(top, "$token") == Some(Str("aa11qq"))
      && Find(top, "$distinct_id") == Some(Str("123"))
      && Find(top, "$ip") == Some(Str("111.111.111.111"))
      && Find(top, "$time") == Some(Num(1380234824))
      && Find(top, "$ignore_time") == Some(Bool(true))
      && Find(top, SetModifier) == Some(Dict(SetObject(data)))
  {
    var t := DateTime(2013, 9, 26, 22, 33, 44);
    var top := BuildPeopleSet(data).value.entries;
    PeopleSetTopLevelKeys(data, top);
    PeopleSetTopLevelValues(data, top);
    assert Find(top, "$time") == Some(EnvelopeValue(Time, Date(t)));
    assert EnvelopeValue(Time, Date(t)) == Num(UnixSeconds(t));
    UnixSecondsOfTestTime();
    PeopleSetTopLevelSize(data, top);
  }

  /** The test's names carry no `$`, the profile wire keys all do: they never clash. */
  lemma UnitTestNamesUnprefixed()
    ensures forall n :: n in UnitTestNames ==> |n| > 0 && n[0] != '$'
    ensures forall w :: w in ProfileWireKeys ==> |w| > 0 && w[0] == '$'
  {
  }

  /** The profile wire keys and the test's two custom names: eight distinct keys. */
  lemma TestSetKeysCount()
    ensures |ProfileWireKeys + {"TestProp1", "TestProp2"}| == 8
  {
    TestSetNamesDistinct();
    DistinctNamesCount(TestSetNames);
    TestSetNamesAreKeys();
  }

  /** The eight keys of the test's `$set` object, as a list. */
  const TestSetNames: seq<string> :=
    ["$first_name", "$last_name", "$name", "$created", "$email", "$phone", "TestProp1", "TestProp2"]

  /** No key of the list repeats. */
  lemma TestSetNamesDistinct()
    ensures forall i, j :: 0 <= i < j < |TestSetNames| ==> TestSetNames[i] != TestSetNames[j]
  {
  }

  /** The list names the profile wire keys and the two custom names, nothing else. */
  lemma TestSetNamesAreKeys()
    ensures NameSet(TestSetNames) == ProfileWireKeys + {"TestProp1", "TestProp2"}
  {
    NameSetMembers(TestSetNames);
  }

  /** The names of a list, as a set. */
  function NameSet(names: seq<string>): set<string>
  {
    if |names| == 0 then {} else {names[0]} + NameSet(names[1..])
  }

  /** `NameSet` holds exactly the names of the list. */
  lemma {:induction false} NameSetMembers(names: seq<string>)
    ensures forall n :: n in NameSet(names) <==> n in names
  {
    if |names| > 0 {
      NameSetMembers(names[1..]);
      assert names == [names[0]] + names[1..];
    }
  }

  /** A list without repeated names has as many distinct names as entries. */
  lemma {:induction false} DistinctNamesCount(names: seq<string>)
    requires forall i, j :: 0 <= i < j < |names| ==> names[i] != names[j]
    ensures |NameSet(names)| == |names|
  {
    if |names| > 0 {
      var rest := names[1..];
      assert forall i, j :: 0 <= i < j < |rest| ==> rest[i] != rest[j] by {
        forall i, j | 0 <= i < j < |rest| ensures rest[i] != rest[j] {
          assert rest[i] == names[i + 1] && rest[j] == names[j + 1];
        }
      }
      DistinctNamesCount(rest);
      assert names[0] !in NameSet(rest) by {
        NameSetMembers(rest);
        forall j | 0 <= j < |rest| ensures rest[j] != names[0] {
          assert rest[j] == names[j + 1];
        }
      }
    }
  }

  /**
   The unit test's expectations on the name fields in `$set`, for any message
   data with unique names none of which is a profile wire key: each lands
   under its wire key with its value unchanged.
   */
  lemma PeopleSetTestNameFields(data: Entries<Value>)
    requires UniqueKeys(data)
    requires forall w :: w in ProfileWireKeys ==> w !in KeySet(data)
    requires Find(data, FirstName) == Some(Str("Darth"))
    requires Find(data, LastName) == Some(Str("Vader"))
    requires Find(data, Name) == Some(Str("Darth Vader"))
    ensures Find(SetObject(data), "$first_name") == Some(Str("Darth"))
    ensures Find(SetObject(data), "$last_name") == Some(Str("Vader"))
    ensures Find(SetObject(data), "$name") == Some(Str("Darth Vader"))
  {
    SetObjectContents(data, FirstName);
    SetObjectContents(data, LastName);
    SetObjectContents(data, Name);
  }

  /**
   The unit test's expectations on `$created`, `$email` and `$phone`: the
   creation date is rendered "2013-05-12T11:10:09", the strings are unchanged.
   */
  lemma PeopleSetTestContactFields(data: Entries<Value>)
    requires UniqueKeys(data)
    requires forall w :: w in ProfileWireKeys ==> w !in KeySet(data)
    requires Find(data, Created) == Some(Date(DateTime(2013, 5, 12, 11, 10, 9)))
    requires Find(data, Email) == Some(Str("darth.vader@mail.com"))
    requires Find(data, Phone) == Some(Str("123456"))
    ensures Find(SetObject(data), "$created") == Some(Str("2013-05-12T11:10:09"))
    ensures Find(SetObject(data), "$email") == Some(Str("darth.vader@mail.com"))
    ensures Find(SetObject(data), "$phone") == Some(Str("123456"))
  {
    PeopleSetTestCreatedField(data);
    assert Find(SetObject(data), "$email") == Some(Str("darth.vader@mail.com")) by {
      SetObjectContents(data, Email);
    }
    assert Find(SetObject(data), "$phone") == Some(Str("123456")) by {
      SetObjectContents(data, Phone);
      assert ProfileWireKey(Phone) == "$phone";
    }
  }

  /** The unit test's creation date reaches `$set` in ISO 8601 form. */
  lemma PeopleSetTestCreatedField(data: Entries<Value>)
    requires UniqueKeys(data)
    requires forall w :: w in ProfileWireKeys ==> w !in KeySet(data)
    requires Find(data, Created) == Some(Date(DateTime(2013, 5, 12, 11, 10, 9)))
    ensures Find(SetObject(data), "$created") == Some(Str("2013-05-12T11:10:09"))
  {
    var c := DateTime(2013, 5, 12, 11, 10, 9);
    SetObjectContents(data, Created);
    assert Find(SetObject(data), "$created") == Some(ProfileValue(Date(c)));
    assert ProfileValue(Date(c)) == Str(IsoDateTime(c));
    IsoDateTimeOfTestCreated();
  }

  /** The unit test's custom properties keep their names and values inside `$set`. */
  lemma PeopleSetTestCustomFields(data: Entries<Value>)
    requires UniqueKeys(data)
    requires forall w :: w in ProfileWireKeys ==> w !in KeySet(data)
    requires Find(data, "TestProp1") == Some(Str("test 1"))
    requires Find(data, "TestProp2") == Some(Num(6))
    ensures Find(SetObject(data), "TestProp1") == Some(Str("test 1"))
    ensures Find(SetObject(data), "TestProp2") == Some(Num(6))
  {
    SetObjectContents(data, "TestProp1");
    SetObjectContents(data, "TestProp2");
  }

  /** Each of the test's names is an envelope field, a profile field or one of its two custom properties. */
  lemma UnitTestNamesKinds()
    ensures forall n :: n in UnitTestNames ==>
      IsEnvelopeName(n) || IsProfileName(n) || n == "TestProp1" || n == "TestProp2"
  {
  }

  /**
   For message data with unique names drawn from the thirteen the test
   writes, `$set` holds only profile wire keys and the two custom names.
   */
  lemma PeopleSetTestProfileKeysWithin(data: Entries<Value>)
    requires UniqueKeys(data)
    requires KeySet(data) <= UnitTestNames
    requires forall w :: w in ProfileWireKeys ==> w !in KeySet(data)
    ensures KeySet(SetObject(data)) <= ProfileWireKeys + {"TestProp1", "TestProp2"}
  {
    UnitTestNamesKinds();
    var setObj := SetObject(data);
    var expected := ProfileWireKeys + {"TestProp1", "TestProp2"};
    forall k | k in KeySet(setObj)
      ensures k in expected
    {
      SetObjectContents(data, k);
    }
  }

  /** Each profile field and custom property the data holds shows up in `$set`. */
  lemma PeopleSetTestProfileKeysPresent(data: Entries<Value>)
    requires UniqueKeys(data)
    requires forall w :: w in ProfileWireKeys ==> w !in KeySet(data)
    requires FirstName in KeySet(data) && LastName in KeySet(data) && Name in KeySet(data)
    requires Created in KeySet(data) && Email in KeySet(data) && Phone in KeySet(data)
    requires "TestProp1" in KeySet(data) && "TestProp2" in KeySet(data)
    ensures "$first_name" in KeySet(SetObject(data))
    ensures "$last_name" in KeySet(SetObject(data))
    ensures "$name" in KeySet(SetObject(data))
    ensures "$created" in KeySet(SetObject(data))
    ensures "$email" in KeySet(SetObject(data))
    ensures "$phone" in KeySet(SetObject(data))
    ensures "TestProp1" in KeySet(SetObject(data))
    ensures "TestProp2" in KeySet(SetObject(data))
  {
    PeopleSetTestCustomKeysPresent(data);
    assert "$first_name" in KeySet(SetObject(data)) by { SetObjectHas(data, FirstName); }
    assert "$last_name" in KeySet(SetObject(data)) by { SetObjectHas(data, LastName); }
    assert "$name" in KeySet(SetObject(data)) by { SetObjectHas(data, Name); }
    assert "$created" in KeySet(SetObject(data)) by { SetObjectHas(data, Created); }
    assert "$email" in KeySet(SetObject(data)) by { SetObjectHas(data, Email); }
    assert "$phone" in KeySet(SetObject(data)) by {
      SetObjectHas(data, Phone);
      assert ProfileWireKey(Phone) == "$phone";
    }
  }

  /** The test's two custom names reach `$set`. */
  lemma PeopleSetTestCustomKeysPresent(data: Entries<Value>)
    requires UniqueKeys(data)
    requires forall w :: w in ProfileWireKeys ==> w !in KeySet(data)
    requires "TestProp1" in KeySet(data) && "TestProp2" in KeySet(data)
    ensures "TestProp1" in KeySet(SetObject(data))
    ensures "TestProp2" in KeySet(SetObject(data))
  {
    assert "TestProp1" in KeySet(SetObject(data)) by {
      assert !IsProfileName("TestProp1");
      SetObjectHas(data, "TestProp1");
    }
    assert "TestProp2" in KeySet(SetObject(data)) by {
      assert !IsProfileName("TestProp2");
      SetObjectHas(data, "TestProp2");
    }
  }


  /** A set of names within the eight expected ones that holds each of them is exactly those eight. */
  lemma TestSetKeysExactly(keys: set<string>)
    requires keys <= ProfileWireKeys + {"TestProp1", "TestProp2"}
    requires "$first_name" in keys && "$last_name" in keys && "$name" in keys
    requires "$created" in keys && "$email" in keys && "$phone" in keys
    requires "TestProp1" in keys && "TestProp2" in keys
    ensures keys == ProfileWireKeys + {"TestProp1", "TestProp2"}
    ensures |keys| == 8
  {
    TestSetKeysCount();
  }

  /** Hence `$set` has exactly eight entries, as the unit test expects. */
  lemma PeopleSetTestProfileSize(data: Entries<Value>)
    requires UniqueKeys(data)
    requires KeySet(data) <= UnitTestNames
    requires FirstName in KeySet(data) && LastName in KeySet(data) && Name in KeySet(data)
    requires Created in KeySet(data) && Email in KeySet(data) && Phone in KeySet(data)
    requires "TestProp1" in KeySet(data) && "TestProp2" in KeySet(data)
    requires forall w :: w in ProfileWireKeys ==> w !in KeySet(data)
    ensures |SetObject(data)| == 8
  {
    PeopleSetTestProfileKeysWithin(data);
    PeopleSetTestProfileKeysPresent(data);
    TestSetKeysExactly(KeySet(SetObject(data)));
    UniqueKeysSize(SetObject(data));
  }

  /** The unit test's data: a dictionary holding only the thirteen names it writes. */
  lemma UnitTestDataNames()
    ensures UniqueKeys(UnitTestData())
    ensures KeySet(UnitTestData()) <= UnitTestNames
    ensures forall w :: w in ProfileWireKeys ==> w !in KeySet(UnitTestData())
  {
    UnitTestDataIsWrites();
    UnitTestNamesUnprefixed();
    forall k | k in KeySet(UnitTestData())
      ensures k in UnitTestNames
    {
      UnitTestDataKeys(k);
    }
  }

  /** The unit test's data meets both lemmas above, so all its assertions hold. */
  lemma PeopleSetUnitTest()
    ensures BuildPeopleSet(UnitTestData()).Ok?
    ensures var top := BuildPeopleSet(UnitTestData()).value.entries;
      && |top| == 6
      && Find(top, "$token") == Some(Str("aa11qq"))
      && Find(top, "$distinct_id") == Some(Str("123"))
      && Find(top, "$ip") == Some(Str("111.111.111.111"))
      && Find(top, "$time") == Some(Num(1380234824))
      && Find(top, "$ignore_time") == Some(Bool(true))
      && Find(top, SetModifier) == Some(Dict(SetObject(UnitTestData())))
    ensures var setObj := SetObject(UnitTestData());
      && |setObj| == 8
      && Find(setObj, "$first_name") == Some(Str("Darth"))
      && Find(setObj, "$last_name") == Some(Str("Vader"))
      && Find(setObj, "$name") == Some(Str("Darth Vader"))
      && Find(setObj, "$created") == Some(Str("2013-05-12T11:10:09"))
      && Find(setObj, "$email") == Some(Str("darth.vader@mail.com"))
      && Find(setObj, "$phone") == Some(Str("123456"))
      && Find(setObj, "TestProp1") == Some(Str("test 1"))
      && Find(setObj, "TestProp2") == Some(Num(6))
  {
    UnitTestFinds();
    UnitTestDataNames();
    PeopleSetTestEnvelope(UnitTestData());
    PeopleSetTestNameFields(UnitTestData());
    PeopleSetTestContactFields(UnitTestData());
    PeopleSetTestCustomFields(UnitTestData());
    PeopleSetTestProfileSize(UnitTestData());
  }
}
