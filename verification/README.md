# mixpanel-csharp client core in Dafny

A model of the core of the `mixpanel-csharp` library, with proofs about it.
The model covers three pieces.

- **The client facade** (`MixpanelClient`). The constructor checks the token.
  Every public operation (Track, Alias, the People operations) builds its
  *message data* from four sources, in this order:
  1. the caller's properties;
  2. the client's token;
  3. the call's extra properties;
  4. the client's super properties.

  The message builder of the operation's kind turns this data into a message
  object. The live operations then serialize it to JSON, encode it as base64,
  and post `data=<base64>` to `http://api.mixpanel.com/track` or `.../engage`.
  Failures are logged and returned as `false`. The `*Test` entries instead
  return each stage's product, or the exception that stopped the pipeline.
- **The Track builder base** (`TrackMessageBuilderBase`). It holds the static
  binding tables. The core table is completed by a static constructor that
  `Add`s the distinct-id bindings. It also builds the core
  `{ event, properties: { token } }` message, in which event and token are
  required.
- **The PeopleSet message layout**, as its unit test fixes it:
  - `$token`, `$distinct_id`, `$ip`, `$time` and `$ignore_time` go at the top
    level, with `$time` as Unix seconds;
  - the profile fields go under `$set`, with `$first_name`, `$created` and the
    others renamed, and `$created` as an ISO 8601 local date-time;
  - custom properties go under `$set` unchanged.

Module layout:

| file | module | contents |
|---|---|---|
| `results.dfy` | `Results` | `Option`, `Result` and the exceptions that can occur |
| `ordered_map.dfy` | `OrderedMap` | insertion-ordered dictionaries: the indexer `Set`, `Add` (throws on a duplicate), `Find`, a fold of writes |
| `dates.dfy` | `Dates` | .NET `DateTime` day numbers, Unix seconds, ISO 8601 rendering and parsing |
| `values.dfy` | `Values` | the property values and their `ToString` |
| `property_names.dfy` | `PropertyNames` | the canonical property names |
| `message_builder_base.dfy` | `MessageBuilderBase` | the required-property check |
| `track_message_builder_base.dfy` | `TrackMessageBuilderBase` | bindings and the core Track message |
| `people_set_message.dfy` | `PeopleSetMessage` | the PeopleSet layout and its unit test |
| `mixpanel_client.dfy` | `MixpanelClient` | construction, message data assembly, dispatch, sending, testing |

Several parts of the library the client calls are parameters of the model
(the fields of `MixpanelClient.Collaborators`):

- the JSON serializer and the HTTP poster, which the client takes from its
  configuration (`ConfigHelper`);
- the UTF-8/base64 encoding, which is fixed library code
  (`Convert.ToBase64String`);
- the property parser (`MessageData`) and the builders other than
  PeopleSet, which the client creates with `new`; the parser applies the
  builder's name bindings and the property rule.

Each of these is a function that may fail. The error logger also comes from
the configuration, but only whether one is configured is modelled (the
field `hasErrorLogger`).

An exception is a `Fail` of `Results.Result`.

Two behaviours of the code are worth stating directly.

- A live operation does not turn an exception raised while building its
  message into `false`. `Create*MessageObject` runs before `SendMessage` is
  entered and outside its `try` blocks (MixpanelClient.cs lines 44-45 and
  491-514), so a builder exception escapes from the operation.
  `MixpanelClient.Dispatch` fails exactly when building fails.
- There is no `PeopleSetOnceTest`. `MixpanelClient.DispatchTest` returns
  `None` for PeopleSetOnce and the test pipeline for every other operation.

## Model

| member | source | states |
|---|---|---|
| MixpanelClient.Url | src/Mixpanel/Mixpanel/MixpanelClient.cs:10-12 | the URL is the service root `http://api.mixpanel.com/` followed by exactly the endpoint |
| MixpanelClient.UrlInjective | src/Mixpanel/Mixpanel/MixpanelClient.cs:496 | different endpoints are posted to different URLs |
| MixpanelClient.NewClient | src/Mixpanel/Mixpanel/MixpanelClient.cs:22-33 | construction fails with `ArgumentNullException("token")` if and only if the token is null, empty or white space; otherwise the token and super properties are kept as given |
| MixpanelClient.NewClientTokenCheck | src/Mixpanel/Mixpanel/MixpanelClient.cs:24-25 | a null, empty or blank token is rejected; any token with one visible character is accepted |
| MixpanelClient.SetSuperProperties | src/Mixpanel/Mixpanel/MixpanelClient.cs:437-440 | the super properties become exactly the given ones and the token is untouched |
| MixpanelClient.SetSuperPropertiesReplaces | src/Mixpanel/Mixpanel/MixpanelClient.cs:437-440 | a second call replaces the first without merging; setting the current value changes nothing |
| MixpanelClient.ExtraPropertiesForDistinctId | src/Mixpanel/Mixpanel/MixpanelClient.cs:471-474 | the extra properties are a one-key dictionary mapping `distinct_id` to the argument |
| MixpanelClient.EndpointOfOperation | src/Mixpanel/Mixpanel/MixpanelClient.cs:42-419 | Track and Alias post to `track`; every People operation posts to `engage` |
| MixpanelClient.BuilderAndTypeOfOperation | src/Mixpanel/Mixpanel/MixpanelClient.cs:42-415 | each operation uses its own builder (Track, Alias, PeopleSet, PeopleSetOnce, PeopleAdd, PeopleAppend, PeopleUnion, PeopleUnset, PeopleDelete, PeopleTrackCharge) and is sent under its own name as message type; no two operations share a builder or a type name |
| MixpanelClient.RulesOfOperation | src/Mixpanel/Mixpanel/MixpanelClient.cs:174-288 | only PeopleAdd restricts properties to numbers and only PeopleUnion to lists; all other operations use no rule |
| MixpanelClient.UserPropertiesOfOperation | src/Mixpanel/Mixpanel/MixpanelClient.cs:84-420 | Alias, PeopleUnset, PeopleDelete and PeopleTrackCharge pass null user properties; the other operations pass the caller's |
| MixpanelClient.ExtraPropertiesOfOperation | src/Mixpanel/Mixpanel/MixpanelClient.cs:58-420 | every operation's extra properties are a dictionary holding its distinct id; Track adds the event, Alias the alias, PeopleUnset its list of names (null when the list is null), PeopleTrackCharge the time and the amount; the others add nothing |
| MixpanelClient.UnsetNamesValue | src/Mixpanel/Mixpanel/MixpanelClient.cs:340-347 | a null list of names is passed on as null; otherwise the value is a list of the same length holding each name in order, with a null name kept as null |
| MixpanelClient.MessageData | src/Mixpanel/Mixpanel/MixpanelClient.cs:458-469 | assembly succeeds exactly when every parse it performs succeeds, and null extra properties are skipped; the first failing parse (user, then extra, then super properties) is the error; the result is a dictionary that holds the token |
| MixpanelClient.MessageDataPrecedence | src/Mixpanel/Mixpanel/MixpanelClient.cs:462-466 | each name takes the value of its last write in the order super > extra > token > user; within one source the last write wins |
| MixpanelClient.SuperPropertiesWin | src/Mixpanel/Mixpanel/MixpanelClient.cs:466 | a name among the super properties always ends with the super value |
| MixpanelClient.TokenUnlessOverridden | src/Mixpanel/Mixpanel/MixpanelClient.cs:464 | the client's token reaches the message data unless the extra or super properties override it, whatever the user properties say |
| MixpanelClient.Build | src/Mixpanel/Mixpanel/MixpanelClient.cs:468 | the PeopleSet builder succeeds exactly when token and distinct id are present and non-empty, and then yields a dictionary whose `$token` and `$distinct_id` are the data's values and whose `$set` is the set object; every other kind is its own builder's result |
| MixpanelClient.CreateMessageObject | src/Mixpanel/Mixpanel/MixpanelClient.cs:458-469 | a failure while assembling the message data is the operation's error, before any builder runs |
| MixpanelClient.PeopleSetCarriesTokenAndDistinctId | src/Mixpanel/Mixpanel/MixpanelClient.cs:120-125 | when the extra properties parse to the distinct-id entry itself and the super properties write neither `token` nor `distinct_id`, a built PeopleSet message carries the client's token and the call's distinct id at the top level, whatever the user properties say |
| MixpanelClient.LogError | src/Mixpanel/Mixpanel/MixpanelClient.cs:553-560 | the logger is called, with the message and the exception, if and only if one is configured |
| MixpanelClient.GetFormData | src/Mixpanel/Mixpanel/MixpanelClient.cs:476-489 | the form data is `data=` followed by the base64 of the JSON; it fails exactly when serializing or encoding fails, with the serializer's exception if serializing fails and otherwise the encoder's |
| MixpanelClient.SendMessage | src/Mixpanel/Mixpanel/MixpanelClient.cs:491-514 | a post happens exactly when encoding succeeds, to the endpoint's URL with the form data; an encoding failure logs "Error creating '<type>' object." and returns false; a failing post logs the URL and data and returns false; a post that returns is the result, with nothing logged |
| MixpanelClient.Dispatch | src/Mixpanel/Mixpanel/MixpanelClient.cs:42-46 | a live operation throws exactly when building its message throws, with the same exception; a built message is sent to the operation's endpoint under its message type |
| MixpanelClient.TestMessage | src/Mixpanel/Mixpanel/MixpanelClient.cs:516-551 | stages run in order build, JSON, base64; each is set exactly when it and all earlier stages succeed; the first failing stage's exception is recorded; no exception exactly when all three are set |
| MixpanelClient.DispatchTest | src/Mixpanel/Mixpanel/MixpanelClient.cs:53-56 | every operation except PeopleSetOnce has a test entry, and it runs the test pipeline on the operation's message |
| MixpanelClient.TestAndSendAgree | src/Mixpanel/Mixpanel/MixpanelClient.cs:516-551 | a completed test predicts the live call's post: the operation's URL with `data=` plus the test's base64; a build failure in the test is the live call's exception; an encoding failure means the live call returns false without posting and logs "Error creating '<type>' object." with the exception the test recorded |
| TrackMessageBuilderBase.CoreSpecialPropsBindings | src/Mixpanel/Mixpanel/Core/Message/TrackMessageBuilderBase.cs:14-27 | the static constructor's `Add`s succeed; the core table becomes the declared entries followed by the distinct-id bindings, a dictionary over `event`, `token`, `distinct_id`, `distinctid` whose targets are all Track names |
| TrackMessageBuilderBase.StaticInitNeedsDisjointTables | src/Mixpanel/Mixpanel/Core/Message/TrackMessageBuilderBase.cs:21-27 | the static constructor's `Add` loop succeeds if and only if the distinct-id table shares no key with the declared core table |
| TrackMessageBuilderBase.DistinctIdPropsBindings | src/Mixpanel/Mixpanel/Core/Message/TrackMessageBuilderBase.cs:7-12 | the distinct-id table is a dictionary over `distinct_id` and `distinctid`, both bound to `distinct_id` |
| TrackMessageBuilderBase.DistinctIdBindingsResolve | src/Mixpanel/Mixpanel/Core/Message/TrackMessageBuilderBase.cs:29-32 | the two accepted spellings, and no other name, resolve to the distinct id |
| TrackMessageBuilderBase.GetCoreMessageObject | src/Mixpanel/Mixpanel/Core/Message/TrackMessageBuilderBase.cs:34-52 | the message exists if and only if event and token are both present and non-empty; otherwise the missing one is named, the event first; the message holds exactly `event` and `properties`, with the token inside `properties`, both as their string form |
| TrackMessageBuilderBase.CoreMessageKeepsStrings | src/Mixpanel/Mixpanel/Core/Message/TrackMessageBuilderBase.cs:39-49 | a string event and token reach the message unchanged |
| MessageBuilderBase.RequiredProperty | src/Mixpanel/Mixpanel/Core/Message/TrackMessageBuilderBase.cs:39-41 | a required property is returned if and only if it is present and neither null nor empty; otherwise the failure names it |
| Values.Show | src/Mixpanel/Mixpanel/Core/Message/TrackMessageBuilderBase.cs:41 | `ToString` of a string is the string itself; every other non-null value renders non-empty |
| Values.ShowNumRoundTrip | src/Mixpanel/Mixpanel/Core/Message/TrackMessageBuilderBase.cs:49 | the string form of a number is its decimal digits, after a minus sign for negatives, and reads back as the number |
| OrderedMap.Set | src/Mixpanel/Mixpanel/MixpanelClient.cs:464 | a write makes the key hold the new value; every other key is unchanged; the keys gain exactly the written one; a new key is appended at the end; a present key keeps the length; a dictionary stays a dictionary |
| OrderedMap.SetInPlace | src/Mixpanel/Mixpanel/MixpanelClient.cs:464 | in a dictionary, writing a present key replaces its entry at its position and leaves every other position as it was |
| OrderedMap.SetAll | src/Mixpanel/Mixpanel/MixpanelClient.cs:463 | applying a sequence of writes adds exactly their keys and keeps keys unique |
| OrderedMap.SetAllFind | src/Mixpanel/Mixpanel/MixpanelClient.cs:463-466 | after a sequence of writes each key holds its last written value, or its earlier value if not written |
| OrderedMap.SetAllFresh | src/Mixpanel/Mixpanel/MixpanelClient.cs:463 | writing keys not yet present appends them in order |
| OrderedMap.Find | src/Mixpanel/Mixpanel.Tests/PeopleSetMessageBuilderTests.cs:70 | a lookup finds nothing exactly when the key is absent |
| OrderedMap.LastValueUnique | src/Mixpanel/Mixpanel/MixpanelClient.cs:465 | in a list of writes without repeated keys, the last write of a key is its only one |
| OrderedMap.UniqueKeysSize | src/Mixpanel/Mixpanel.Tests/PeopleSetMessageBuilderTests.cs:69 | a dictionary's count is its number of distinct keys |
| OrderedMap.Add | src/Mixpanel/Mixpanel/Core/Message/TrackMessageBuilderBase.cs:25 | `Dictionary.Add` succeeds if and only if the key is absent, and throws a duplicate-key exception naming it otherwise; a successful `Add` appends the entry, so the key then holds the value and a dictionary stays a dictionary |
| OrderedMap.AddAllSucceedsIffDisjoint | src/Mixpanel/Mixpanel/Core/Message/TrackMessageBuilderBase.cs:23-26 | adding entries to a dictionary one by one with `Add` succeeds if and only if the entries repeat no key and share none with the dictionary; the result then holds both, in order |
| Dates.UnixSecondsStrictlyIncreasing | src/Mixpanel/Mixpanel.Tests/PeopleSetMessageBuilderTests.cs:73-74 | a later date-time has more Unix seconds |
| Dates.UnixSecondsInjective | src/Mixpanel/Mixpanel.Tests/PeopleSetMessageBuilderTests.cs:73-74 | different date-times give different Unix seconds |
| Dates.UnixEpochIsZero | src/Mixpanel/Mixpanel.Tests/PeopleSetMessageBuilderTests.cs:74 | 1970-01-01T00:00:00 is second 0 |
| Dates.DaysBeforeYearCounts | src/Mixpanel/Mixpanel.Tests/PeopleSetMessageBuilderTests.cs:74 | the closed-form Gregorian day count before a year equals counting the days of every earlier year |
| Dates.UnixSecondsOfTestTime | src/Mixpanel/Mixpanel.Tests/PeopleSetMessageBuilderTests.cs:38-74 | 2013-09-26T22:33:44 is Unix second 1380234824 |
| Dates.PadDigitsRoundTrip | src/Mixpanel/Mixpanel.Tests/PeopleSetMessageBuilderTests.cs:84 | zero-padded digits read back as the number |
| Dates.DigitsRoundTrip | src/Mixpanel/Mixpanel.Tests/PeopleSetMessageBuilderTests.cs:84 | a digit string is the zero-padded rendering of its value at its own width |
| Dates.IsoDateTimeFields | src/Mixpanel/Mixpanel.Tests/PeopleSetMessageBuilderTests.cs:84 | the rendering is year, month, day, hour, minute and second as 4, 2, 2, 2, 2 and 2 digits, separated by `-`, `-`, `T`, `:`, `:` |
| Dates.IsoDateTimeRoundTrip | src/Mixpanel/Mixpanel.Tests/PeopleSetMessageBuilderTests.cs:84 | parsing the ISO rendering of a date-time gives back the date-time |
| Dates.ParseIsoDateTimeInverse | src/Mixpanel/Mixpanel.Tests/PeopleSetMessageBuilderTests.cs:84 | every string that parses is the rendering of what it parses to |
| Dates.IsoDateTimeOfTestCreated | src/Mixpanel/Mixpanel.Tests/PeopleSetMessageBuilderTests.cs:53-84 | 2013-05-12 11:10:09 renders as `2013-05-12T11:10:09` |
| PeopleSetMessage.ProfileValue | src/Mixpanel/Mixpanel.Tests/PeopleSetMessageBuilderTests.cs:84 | a date-time profile value becomes an ISO 8601 `YYYY-MM-DDThh:mm:ss` string that parses back to the same date-time; any other value is unchanged |
| PeopleSetMessage.BuildPeopleSet | src/Mixpanel/Mixpanel.Tests/PeopleSetMessageBuilderTests.cs:68-88 | the message exists if and only if token and distinct id are present and non-empty; otherwise the missing one is named, the token first |
| PeopleSetMessage.Envelope | src/Mixpanel/Mixpanel.Tests/PeopleSetMessageBuilderTests.cs:69-75 | the top level holds only envelope wire keys: the token, the distinct id, and `$ip`, `$time`, `$ignore_time` whenever the data holds them, with `$time` converted |
| PeopleSetMessage.EnvelopeSize | src/Mixpanel/Mixpanel.Tests/PeopleSetMessageBuilderTests.cs:69 | the envelope has two entries plus one per optional field the data holds |
| PeopleSetMessage.ProfileWireKeyInjective | src/Mixpanel/Mixpanel.Tests/PeopleSetMessageBuilderTests.cs:81-86 | different profile fields are written under different wire keys |
| PeopleSetMessage.SetEntriesKeys | src/Mixpanel/Mixpanel.Tests/PeopleSetMessageBuilderTests.cs:77-88 | `$set` receives no envelope field; its keys are custom names or profile wire keys |
| PeopleSetMessage.SetEntriesCustom | src/Mixpanel/Mixpanel.Tests/PeopleSetMessageBuilderTests.cs:87-88 | a custom property's last write in the data is its last write into `$set` |
| PeopleSetMessage.SetEntriesProfile | src/Mixpanel/Mixpanel.Tests/PeopleSetMessageBuilderTests.cs:81-86 | a profile field's last write lands in `$set` under its wire key, with dates in ISO form |
| PeopleSetMessage.SetObjectContents | src/Mixpanel/Mixpanel.Tests/PeopleSetMessageBuilderTests.cs:77-88 | in `$set`, envelope names are absent, custom names keep their values, profile fields appear under their wire keys with dates in ISO form, and nothing else appears |
| PeopleSetMessage.SetObjectHas | src/Mixpanel/Mixpanel.Tests/PeopleSetMessageBuilderTests.cs:77-88 | every non-envelope property of the data appears in `$set`, under its wire key when it is a profile field |
| PeopleSetMessage.WireKeysDisjoint | src/Mixpanel/Mixpanel.Tests/PeopleSetMessageBuilderTests.cs:69-88 | the envelope keys, `$set` and the profile wire keys do not overlap |
| PeopleSetMessage.PeopleSetTopLevelKeys | src/Mixpanel/Mixpanel.Tests/PeopleSetMessageBuilderTests.cs:69-77 | the message is a dictionary holding `$token`, `$distinct_id` and `$set`, otherwise only envelope keys, and no profile key |
| PeopleSetMessage.PeopleSetTopLevelValues | src/Mixpanel/Mixpanel.Tests/PeopleSetMessageBuilderTests.cs:70-78 | the top-level values are the data's token, distinct id, ip and ignore-time, its time in Unix seconds, and `$set` |
| PeopleSetMessage.PeopleSetTopLevelSize | src/Mixpanel/Mixpanel.Tests/PeopleSetMessageBuilderTests.cs:69 | the top level has three entries plus one per optional envelope field present |
| PeopleSetMessage.UnitTestDataIsWrites | src/Mixpanel/Mixpanel.Tests/PeopleSetMessageBuilderTests.cs:29-66 | the test's thirteen distinct writes produce exactly those entries, in order |
| PeopleSetMessage.UnitTestFinds | src/Mixpanel/Mixpanel.Tests/PeopleSetMessageBuilderTests.cs:29-66 | each name the test sets holds the value the test wrote |
| PeopleSetMessage.PeopleSetTestEnvelope | src/Mixpanel/Mixpanel.Tests/PeopleSetMessageBuilderTests.cs:69-75 | data with the test's envelope values gives six top-level entries with the expected token, distinct id, ip, `$time` 1380234824 and ignore-time |
| PeopleSetMessage.PeopleSetTestContactFields | src/Mixpanel/Mixpanel.Tests/PeopleSetMessageBuilderTests.cs:84-86 | `$created` is `2013-05-12T11:10:09`; `$email` and `$phone` keep the test's values |
| PeopleSetMessage.PeopleSetTestNameFields | src/Mixpanel/Mixpanel.Tests/PeopleSetMessageBuilderTests.cs:81-83 | `$first_name`, `$last_name` and `$name` keep the test's values |
| PeopleSetMessage.PeopleSetTestCustomFields | src/Mixpanel/Mixpanel.Tests/PeopleSetMessageBuilderTests.cs:87-88 | `TestProp1` and `TestProp2` keep their names and values |
| PeopleSetMessage.PeopleSetTestProfileSize | src/Mixpanel/Mixpanel.Tests/PeopleSetMessageBuilderTests.cs:80 | data holding only the test's names, with all six profile fields and both custom properties, gives `$set` exactly eight entries |
| PeopleSetMessage.PeopleSetUnitTest | src/Mixpanel/Mixpanel.Tests/PeopleSetMessageBuilderTests.cs:26-89 | every assertion of the unit test holds for the data its writes build |

## Left out

- The JSON serializer, the HTTP poster and the error logger come from the client's configuration (`ConfigHelper`, MixpanelClient.cs lines 478, 507 and 555). The UTF-8/base64 encoding is fixed library code (lines 481-484). All of them are outside this model: the serializer, the poster and the encoding are parameters (`MixpanelClient.Collaborators`), the logger is only present or absent, and only what the client does with their results is modelled.
- `MessageData`'s parsing of property objects, its application of name bindings and the property rules belong to a class that is not part of this model. They are one parameter that yields the writes a source makes. Only the order of those writes and the last-write-wins indexer are modelled.
- The builders other than PeopleSet (Track, Alias, PeopleSetOnce, PeopleAdd, PeopleAppend, PeopleUnion, PeopleUnset, PeopleDelete, PeopleTrackCharge) are not part of this model. They are a parameter. The Track builders' shared core message is modelled in `TrackMessageBuilderBase`.
- The PeopleSet builder's own source is not part of this model. Its layout is the one its unit test fixes. Token and distinct id are required, as the other builders require theirs. The optional `$ip`, `$time` and `$ignore_time` are written whenever the data holds the property, a null value included.
- The `MixpanelProperty` constants are not part of this model. `PropertyNames` gives them the wire-format strings they stand for.
- PeopleSetMessage.BuildPeopleSet: its contract covers failure and success; the layout of a built message is stated by `PeopleSetTopLevelKeys`, `PeopleSetTopLevelValues` and `SetObjectContents`.
- `MixpanelClient.CreateMessageObject`: its contract states only the assembly failure. What the built message holds is stated per builder by `PeopleSetCarriesTokenAndDistinctId`, by `Build`, and by the builders' own members.
- The `UtcNow` clock used by the PeopleTrackCharge overloads without a time is not modelled. The time is always an argument.
- The PeopleTrackCharge amount is a `decimal` in the library and an integer here.
- The forwarding overloads without a distinct id are the full operations with a null distinct id (`Null`). They are not modelled separately.
- The test fixture's four-argument `MessageData` constructor and `MixpanelConfig.Global.Reset()` are test set-up that is not part of this model.
- A `DateTime` here has no fractional seconds and no kind, and is treated as UTC. Years range over 1 to 9999, as .NET allows.
- MixpanelClient.SendMessage: the error logger is only "configured or not" here and never fails. In the library it is a configured function called inside both `catch` blocks (MixpanelClient.cs lines 501, 511 and 558), so a logger that throws makes `SendMessage` throw instead of returning `false`. This is not modelled.
- PeopleSetMessage.EnvelopeValue: its contract is the conversion itself. What the converted `$time` means is stated by `Dates.UnixSecondsStrictlyIncreasing`, `Dates.UnixSecondsInjective`, `Dates.UnixEpochIsZero` and `PeopleSetMessage.PeopleSetTopLevelValues`.
- Values.Show: `ToString` of a date uses the invariant culture, and numbers carry no group separators. Other cultures are not modelled.
