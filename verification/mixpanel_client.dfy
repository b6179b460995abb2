/**
 The client facade (`MixpanelClient`). Every public operation assembles the
 message data from four sources, hands it to the builder of its kind, and
 then either posts the encoded message or, for the `*Test` entries, returns
 each stage of encoding it.

 The parts the client calls but this model does not define are parameters,
 the fields of `Collaborators`. In the library the JSON serializer, the HTTP
 poster and the error logger come from the configuration (`ConfigHelper`);
 the property parser (the `MessageData` class, which also applies the
 builder's name bindings and the property rule), the builders other than
 PeopleSet and the fixed UTF-8/base64 encoding are library code outside this
 model. Each is a function that may fail, except the logger, whose presence
 alone is modelled.
 */
module MixpanelClient {
  import opened Results
  import opened OrderedMap
  import opened Dates
  import opened Values
  import PN = PropertyNames
  import opened PeopleSetMessage
  import opened MessageBuilderBase

  const UrlPrefix := "http://api.mixpanel.com/"
  const EndpointTrack := "track"
  const EndpointEngage := "engage"

  /** `string.Format(UrlFormat, endpoint)`: the service root followed by the endpoint. */
  function Url(endpoint: string): (url: string)
    ensures |url| == |UrlPrefix| + |endpoint|
    ensures url[..|UrlPrefix|] == UrlPrefix && url[|UrlPrefix|..] == endpoint
  {
    UrlPrefix + endpoint
  }

  /** Distinct endpoints give distinct URLs. */
  lemma UrlInjective(a: string, b: string)
    requires Url(a) == Url(b)
    ensures a == b
  {
    assert a == Url(a)[|UrlPrefix|..];
    assert b == Url(b)[|UrlPrefix|..];
  }

  // ---------------------------------------------------------------------
  // Construction and super properties
  // ---------------------------------------------------------------------

  /** `Char.IsWhiteSpace`: the Unicode space separators, line and paragraph separators, and the control characters U+0009..U+000D and U+0085. */
  predicate IsWhiteSpace(c: char)
  {
    c == ' ' || ('\t' <= c <= '\r') || c == '\U{85}' || c == '\U{A0}' || c == '\U{1680}'
    || ('\U{2000}' <= c <= '\U{200A}') || c == '\U{2028}' || c == '\U{2029}'
    || c == '\U{202F}' || c == '\U{205F}' || c == '\U{3000}'
  }

  /** `String.IsNullOrWhiteSpace`; `None` stands for a null reference. */
  predicate IsNullOrWhiteSpace(s: Option<string>)
  {
    s.None? || forall i :: 0 <= i < |s.value| ==> IsWhiteSpace(s.value[i])
  }

  /** The client's state: its token and the super properties attached to every message. */
  datatype Client = Client(token: string, superProperties: Value)

  /**
   The constructor: a null, empty or blank token is rejected with
   `ArgumentNullException("token")`; any other token is kept as given.
   */
  function NewClient(token: Option<string>, superProperties: Value): (r: Result<Client>)
    ensures r.Fail? <==> IsNullOrWhiteSpace(token)
    ensures r.Fail? ==> r.error == ArgumentNull("token")
    ensures r.Ok? ==> r.value.token == token.value && r.value.superProperties == superProperties
  {
    if IsNullOrWhiteSpace(token) then Fail(ArgumentNull("token"))
    else Ok(Client(token.value, superProperties))
  }

  /** The constructor's two edges: no token or the empty one fails; a token with one visible character succeeds. */
  lemma NewClientTokenCheck(t: string, superProperties: Value)
    ensures NewClient(None, superProperties) == Fail(ArgumentNull("token"))
    ensures NewClient(Some(""), superProperties) == Fail(ArgumentNull("token"))
    ensures NewClient(Some(" \t\r\n"), superProperties) == Fail(ArgumentNull("token"))
    ensures (exists i :: 0 <= i < |t| && !IsWhiteSpace(t[i]))
        ==> NewClient(Some(t), superProperties) == Ok(Client(t, superProperties))
  {
    var blank := " \t\r\n";
    assert forall i :: 0 <= i < |blank| ==> IsWhiteSpace(blank[i]);
  }

  /** `SetSuperProperties`: the stored super properties become exactly the given ones. */
  function SetSuperProperties(client: Client, superProperties: Value): (r: Client)
    ensures r.superProperties == superProperties
    ensures r.token == client.token
  {
    client.(superProperties := superProperties)
  }

  /** Setting super properties twice keeps only the second set: nothing is merged. */
  lemma SetSuperPropertiesReplaces(client: Client, first: Value, second: Value)
    ensures SetSuperProperties(SetSuperProperties(client, first), second)
         == SetSuperProperties(client, second)
    ensures SetSuperProperties(client, client.superProperties) == client
  {
  }

  // ---------------------------------------------------------------------
  // Operations and their wiring
  // ---------------------------------------------------------------------

  /** `MessagePropetyRules`: an extra rule the parser applies to user properties. */
  datatype MessagePropertyRules = NoRules | NumericsOnly | ListsOnly

  /** The message builder an operation uses. */
  datatype BuilderKind =
    | TrackBuilder | AliasBuilder
    | PeopleSetBuilder | PeopleSetOnceBuilder | PeopleAddBuilder | PeopleAppendBuilder
    | PeopleUnionBuilder | PeopleUnsetBuilder | PeopleDeleteBuilder | PeopleTrackChargeBuilder

  /**
   The public operations with their arguments. `None` for the event or the
   list of names to unset, and `Null` for a distinct id or properties, stand
   for a null argument; a `None` inside the list of names is a null name. The
   forwarding overloads that pass a null distinct id are these with `Null`.
   */
  datatype Operation =
    | Track(event: Option<string>, distinctId: Value, properties: Value)
    | Alias(distinctId: Value, alias: Value)
    | PeopleSet(distinctId: Value, properties: Value)
    | PeopleSetOnce(distinctId: Value, properties: Value)
    | PeopleAdd(distinctId: Value, properties: Value)
    | PeopleAppend(distinctId: Value, properties: Value)
    | PeopleUnion(distinctId: Value, properties: Value)
    | PeopleUnset(distinctId: Value, propertyNames: Option<seq<Option<string>>>)
    | PeopleDelete(distinctId: Value)
    | PeopleTrackCharge(distinctId: Value, amount: int, time: ValidDateTime)

  /** The endpoint a message is posted to. */
  function Endpoint(op: Operation): string
  {
    if op.Track? || op.Alias? then EndpointTrack else EndpointEngage
  }

  /** The message type named in the error log. */
  function MessageType(op: Operation): string
  {
    match op
    case Track(_, _, _) => "Track"
    case Alias(_, _) => "Alias"
    case PeopleSet(_, _) => "PeopleSet"
    case PeopleSetOnce(_, _) => "PeopleSetOnce"
    case PeopleAdd(_, _) => "PeopleAdd"
    case PeopleAppend(_, _) => "PeopleAppend"
    case PeopleUnion(_, _) => "PeopleUnion"
    case PeopleUnset(_, _) => "PeopleUnset"
    case PeopleDelete(_) => "PeopleDelete"
    case PeopleTrackCharge(_, _, _) => "PeopleTrackCharge"
  }

  function BuilderOf(op: Operation): BuilderKind
  {
    match op
    case Track(_, _, _) => TrackBuilder
    case Alias(_, _) => AliasBuilder
    case PeopleSet(_, _) => PeopleSetBuilder
    case PeopleSetOnce(_, _) => PeopleSetOnceBuilder
    case PeopleAdd(_, _) => PeopleAddBuilder
    case PeopleAppend(_, _) => PeopleAppendBuilder
    case PeopleUnion(_, _) => PeopleUnionBuilder
    case PeopleUnset(_, _) => PeopleUnsetBuilder
    case PeopleDelete(_) => PeopleDeleteBuilder
    case PeopleTrackCharge(_, _, _) => PeopleTrackChargeBuilder
  }

  /** The caller's own properties; the operations without a properties argument pass null. */
  function UserProperties(op: Operation): Value
  {
    match op
    case Track(_, _, p) => p
    case PeopleSet(_, p) => p
    case PeopleSetOnce(_, p) => p
    case PeopleAdd(_, p) => p
    case PeopleAppend(_, p) => p
    case PeopleUnion(_, p) => p
    case _ => Null
  }

  /** `CreateExtraPropertiesForDistinctId`: a one-entry dictionary holding the distinct id. */
  function ExtraPropertiesForDistinctId(distinctId: Value): (r: Entries<Value>)
    ensures UniqueKeys(r) && KeySet(r) == {PN.DistinctId}
    ensures Find(r, PN.DistinctId) == Some(distinctId)
  {
    SingleLiteral((PN.DistinctId, distinctId));
    [(PN.DistinctId, distinctId)]
  }

  /** A possibly null string as a property value. */
  function NullableString(s: Option<string>): Value
  {
    if s.Some? then Str(s.value) else Null
  }

  /** The `$unset` value: null for a null list, otherwise the names in order, null names kept as null. */
  function UnsetNamesValue(names: Option<seq<Option<string>>>): (v: Value)
    ensures names.None? <==> v.Null?
    ensures names.Some? ==> v.List? && |v.items| == |names.value|
    ensures names.Some? ==> forall i :: 0 <= i < |names.value| ==>
      (v.items[i].Str? <==> names.value[i].Some?)
      && (names.value[i].Some? ==> v.items[i].s == names.value[i].value)
      && (names.value[i].None? ==> v.items[i].Null?)
  {
    if names.None? then Null
    else List(seq(|names.value|, i requires 0 <= i < |names.value| => NullableString(names.value[i])))
  }

  /** The call-specific properties each operation builds from its arguments. */
  function ExtraProperties(op: Operation): Entries<Value>
  {
    match op
    case Track(e, d, _) =>
      [(PN.Event, if e.Some? then Str(e.value) else Null), (PN.DistinctId, d)]
    case Alias(d, a) => [(PN.DistinctId, d), (PN.Alias, a)]
    case PeopleUnset(d, names) =>
      [(PN.DistinctId, d), (PN.PeopleUnset, UnsetNamesValue(names))]
    case PeopleTrackCharge(d, amount, t) =>
      [(PN.DistinctId, d), (PN.Time, Date(t)), (PN.PeopleAmount, Num(amount))]
    case PeopleDelete(d) => ExtraPropertiesForDistinctId(d)
    case PeopleSet(d, _) => ExtraPropertiesForDistinctId(d)
    case PeopleSetOnce(d, _) => ExtraPropertiesForDistinctId(d)
    case PeopleAdd(d, _) => ExtraPropertiesForDistinctId(d)
    case PeopleAppend(d, _) => ExtraPropertiesForDistinctId(d)
    case PeopleUnion(d, _) => ExtraPropertiesForDistinctId(d)
  }

  /** The property rule each operation passes to the parser. */
  function RulesOf(op: Operation): MessagePropertyRules
  {
    match op
    case PeopleAdd(_, _) => NumericsOnly
    case PeopleUnion(_, _) => ListsOnly
    case _ => NoRules
  }

  /** Track and Alias go to `track`, every People operation to `engage`. */
  lemma EndpointOfOperation(op: Operation)
    ensures Endpoint(op) == EndpointTrack <==> op.Track? || op.Alias?
    ensures Endpoint(op) == EndpointEngage <==> !(op.Track? || op.Alias?)
    ensures Url(Endpoint(op)) == "http://api.mixpanel.com/track"
        || Url(Endpoint(op)) == "http://api.mixpanel.com/engage"
  {
  }

  /** Only PeopleAdd restricts to numbers and only PeopleUnion to lists; PeopleAppend uses no rule. */
  lemma RulesOfOperation(op: Operation)
    ensures RulesOf(op) == NumericsOnly <==> op.PeopleAdd?
    ensures RulesOf(op) == ListsOnly <==> op.PeopleUnion?
    ensures RulesOf(op) == NoRules <==> !(op.PeopleAdd? || op.PeopleUnion?)
  {
  }

  /**
   Each operation uses its own builder and names itself in the error log:
   the builder kinds and the type names are in one-to-one correspondence
   with the operations.
   */
  lemma BuilderAndTypeOfOperation(op: Operation)
    ensures BuilderOf(op) == TrackBuilder <==> op.Track?
    ensures BuilderOf(op) == AliasBuilder <==> op.Alias?
    ensures BuilderOf(op) == PeopleSetBuilder <==> op.PeopleSet?
    ensures BuilderOf(op) == PeopleSetOnceBuilder <==> op.PeopleSetOnce?
    ensures BuilderOf(op) == PeopleAddBuilder <==> op.PeopleAdd?
    ensures BuilderOf(op) == PeopleAppendBuilder <==> op.PeopleAppend?
    ensures BuilderOf(op) == PeopleUnionBuilder <==> op.PeopleUnion?
    ensures BuilderOf(op) == PeopleUnsetBuilder <==> op.PeopleUnset?
    ensures BuilderOf(op) == PeopleDeleteBuilder <==> op.PeopleDelete?
    ensures BuilderOf(op) == PeopleTrackChargeBuilder <==> op.PeopleTrackCharge?
    ensures MessageType(op) == "Track" <==> op.Track?
    ensures MessageType(op) == "Alias" <==> op.Alias?
    ensures MessageType(op) == "PeopleSet" <==> op.PeopleSet?
    ensures MessageType(op) == "PeopleSetOnce" <==> op.PeopleSetOnce?
    ensures MessageType(op) == "PeopleAdd" <==> op.PeopleAdd?
    ensures MessageType(op) == "PeopleAppend" <==> op.PeopleAppend?
    ensures MessageType(op) == "PeopleUnion" <==> op.PeopleUnion?
    ensures MessageType(op) == "PeopleUnset" <==> op.PeopleUnset?
    ensures MessageType(op) == "PeopleDelete" <==> op.PeopleDelete?
    ensures MessageType(op) == "PeopleTrackCharge" <==> op.PeopleTrackCharge?
  {
  }

  /** Alias, PeopleUnset, PeopleDelete and PeopleTrackCharge take no user properties; the others pass theirs on. */
  lemma UserPropertiesOfOperation(op: Operation)
    ensures op.Alias? || op.PeopleUnset? || op.PeopleDelete? || op.PeopleTrackCharge?
        ==> UserProperties(op) == Null
    ensures !(op.Alias? || op.PeopleUnset? || op.PeopleDelete? || op.PeopleTrackCharge?)
        ==> UserProperties(op) == op.properties
  {
  }

  /**
   Every operation's extra properties form a dictionary holding the distinct
   id argument; besides it, Track adds the event, Alias the alias, PeopleUnset
   the list of names and PeopleTrackCharge the time and the amount.
   */
  lemma ExtraPropertiesOfOperation(op: Operation)
    ensures UniqueKeys(ExtraProperties(op))
    ensures Find(ExtraProperties(op), PN.DistinctId) == Some(op.distinctId)
    ensures op.Track? ==>
      && KeySet(ExtraProperties(op)) == {PN.Event, PN.DistinctId}
      && Find(ExtraProperties(op), PN.Event) == (if op.event.Some? then Some(Str(op.event.value)) else Some(Null))
    ensures op.Alias? ==>
      && KeySet(ExtraProperties(op)) == {PN.DistinctId, PN.Alias}
      && Find(ExtraProperties(op), PN.Alias) == Some(op.alias)
    ensures op.PeopleUnset? ==>
      && KeySet(ExtraProperties(op)) == {PN.DistinctId, PN.PeopleUnset}
      && Find(ExtraProperties(op), PN.PeopleUnset) == Some(UnsetNamesValue(op.propertyNames))
    ensures op.PeopleTrackCharge? ==>
      && KeySet(ExtraProperties(op)) == {PN.DistinctId, PN.Time, PN.PeopleAmount}
      && Find(ExtraProperties(op), PN.Time) == Some(Date(op.time))
      && Find(ExtraProperties(op), PN.PeopleAmount) == Some(Num(op.amount))
    ensures !(op.Track? || op.Alias? || op.PeopleUnset? || op.PeopleTrackCharge?)
        ==> KeySet(ExtraProperties(op)) == {PN.DistinctId}
  {
    var extra := ExtraProperties(op);
    match op
    case Track(e, d, _) =>
      SmallLiterals(extra[0], extra[1]);
    case Alias(d, a) =>
      SmallLiterals(extra[0], extra[1]);
    case PeopleUnset(d, names) =>
      SmallLiterals(extra[0], extra[1]);
    case PeopleTrackCharge(d, amount, t) =>
      assert extra == [extra[0]] + [extra[1], extra[2]];
      SmallLiterals(extra[1], extra[2]);
      KeySetAppend([extra[0]], [extra[1], extra[2]]);
      FindAppend([extra[0]], [extra[1], extra[2]], PN.Time);
      FindAppend([extra[0]], [extra[1], extra[2]], PN.PeopleAmount);
      UniqueKeysAppend([extra[0]], [extra[1], extra[2]]);
      SingleLiteral(extra[0]);
    case _ =>
  }

  // ---------------------------------------------------------------------
  // Message data and the message object
  // ---------------------------------------------------------------------

  /**
   The parts of the library the client calls. `parseProperties` turns one source object
   into the writes `ParseAndSetProperties` performs (bindings and the rule
   applied, rejected properties dropped) or fails; `buildMessage` is a
   builder's `GetMessageObject` for the kinds not modelled here.
   */
  datatype Collaborators = Collaborators(
    parseProperties: (BuilderKind, MessagePropertyRules, Value) -> Result<Entries<Value>>,
    buildMessage: (BuilderKind, Entries<Value>) -> Result<Value>,
    serializeJson: Value -> Result<string>,
    encodeBase64: string -> Result<string>,
    httpPost: (string, string) -> Result<bool>,
    hasErrorLogger: bool)

  /** `ParseAndSetProperties`: the parsed writes applied in order, each replacing an earlier value. */
  function ParseAndSet(c: Collaborators, kind: BuilderKind, rules: MessagePropertyRules,
                       data: Entries<Value>, source: Value): Result<Entries<Value>>
  {
    var writes :- c.parseProperties(kind, rules, source);
    Ok(SetAll(data, writes))
  }

  /**
   The message data `GetMessageObject` fills: user properties, then the
   token, then the extra properties unless they are null, then the super
   properties. It fails with the first failing parse.
   */
  function MessageData(client: Client, c: Collaborators, kind: BuilderKind, rules: MessagePropertyRules,
                       user: Value, extra: Value): (r: Result<Entries<Value>>)
    ensures r.Ok? <==>
      && c.parseProperties(kind, rules, user).Ok?
      && (extra.Null? || c.parseProperties(kind, rules, extra).Ok?)
      && c.parseProperties(kind, rules, client.superProperties).Ok?
    ensures c.parseProperties(kind, rules, user).Fail? ==> r == Fail(c.parseProperties(kind, rules, user).error)
    ensures c.parseProperties(kind, rules, user).Ok? && !extra.Null? && c.parseProperties(kind, rules, extra).Fail?
        ==> r == Fail(c.parseProperties(kind, rules, extra).error)
    ensures c.parseProperties(kind, rules, user).Ok? && (extra.Null? || c.parseProperties(kind, rules, extra).Ok?)
            && c.parseProperties(kind, rules, client.superProperties).Fail?
        ==> r == Fail(c.parseProperties(kind, rules, client.superProperties).error)
    ensures r.Ok? ==> UniqueKeys(r.value) && PN.Token in KeySet(r.value)
  {
    var fromUser :- ParseAndSet(c, kind, rules, [], user);
    var withToken := Set(fromUser, PN.Token, Str(client.token));
    var withExtra :- if extra.Null? then Ok(withToken) else ParseAndSet(c, kind, rules, withToken, extra);
    ParseAndSet(c, kind, rules, withExtra, client.superProperties)
  }

  /**
   Precedence in the message data: a name takes its value from the last
   source that writes it, in the order user properties, token, extra
   properties, super properties; within one source the last write wins.
   */
  lemma MessageDataPrecedence(client: Client, c: Collaborators, kind: BuilderKind,
                              rules: MessagePropertyRules, user: Value, extra: Value, k: string)
    requires MessageData(client, c, kind, rules, user, extra).Ok?
    ensures var data := MessageData(client, c, kind, rules, user, extra).value;
      var fromUser := c.parseProperties(kind, rules, user).value;
      var fromExtra := if extra.Null? then [] else c.parseProperties(kind, rules, extra).value;
      var fromSuper := c.parseProperties(kind, rules, client.superProperties).value;
      Find(data, k)
        == if LastValue(fromSuper, k).Some? then LastValue(fromSuper, k)
           else if LastValue(fromExtra, k).Some? then LastValue(fromExtra, k)
           else if k == PN.Token then Some(Str(client.token))
           else LastValue(fromUser, k)
  {
    var fromUser := c.parseProperties(kind, rules, user).value;
    var fromExtra := if extra.Null? then [] else c.parseProperties(kind, rules, extra).value;
    var fromSuper := c.parseProperties(kind, rules, client.superProperties).value;
    var d0 := SetAll([], fromUser);
    var d1 := Set(d0, PN.Token, Str(client.token));
    var d2 := SetAll(d1, fromExtra);
    SetAllFind([], fromUser, k);
    SetAllFind(d1, fromExtra, k);
    SetAllFind(d2, fromSuper, k);
    assert MessageData(client, c, kind, rules, user, extra).value == SetAll(d2, fromSuper);
  }

  /** A super property always ends up as the final value of its name, over the token and the call's own arguments. */
  lemma SuperPropertiesWin(client: Client, c: Collaborators, kind: BuilderKind,
                           rules: MessagePropertyRules, user: Value, extra: Value, k: string)
    requires MessageData(client, c, kind, rules, user, extra).Ok?
    requires k in KeySet(c.parseProperties(kind, rules, client.superProperties).value)
    ensures Find(MessageData(client, c, kind, rules, user, extra).value, k)
         == LastValue(c.parseProperties(kind, rules, client.superProperties).value, k)
  {
    MessageDataPrecedence(client, c, kind, rules, user, extra, k);
  }

  /** The client's token is in the message data unless the extra or super properties override it. */
  lemma TokenUnlessOverridden(client: Client, c: Collaborators, kind: BuilderKind,
                              rules: MessagePropertyRules, user: Value, extra: Value)
    requires MessageData(client, c, kind, rules, user, extra).Ok?
    requires PN.Token !in KeySet(c.parseProperties(kind, rules, client.superProperties).value)
    requires extra.Null? || PN.Token !in KeySet(c.parseProperties(kind, rules, extra).value)
    ensures Find(MessageData(client, c, kind, rules, user, extra).value, PN.Token) == Some(Str(client.token))
  {
    MessageDataPrecedence(client, c, kind, rules, user, extra, PN.Token);
  }

  /**
   The builder of a kind. The PeopleSet builder requires the token and the
   distinct id and puts them, with the `$set` object, at the top level of a
   dictionary; every other builder comes from the collaborators.
   */
  function Build(c: Collaborators, kind: BuilderKind, data: Entries<Value>): (r: Result<Value>)
    ensures kind == PeopleSetBuilder ==> (r.Ok? <==> Present(data, PN.Token) && Present(data, PN.DistinctId))
    ensures kind == PeopleSetBuilder && r.Ok? ==>
      && r.value.Dict?
      && UniqueKeys(r.value.entries)
      && Find(r.value.entries, "$token") == Find(data, PN.Token)
      && Find(r.value.entries, "$distinct_id") == Find(data, PN.DistinctId)
      && Find(r.value.entries, SetModifier) == Some(Dict(SetObject(data)))
    ensures kind != PeopleSetBuilder ==> r == c.buildMessage(kind, data)
  {
    if kind == PeopleSetBuilder then
      var r := BuildPeopleSet(data);
      if r.Ok? then
        PeopleSetTopLevelKeys(data, r.value.entries);
        PeopleSetTopLevelValues(data, r.value.entries);
        r
      else r
    else c.buildMessage(kind, data)
  }

  /** `Create*MessageObject` and `GetMessageObject`: the operation's message, or the exception building it. */
  function CreateMessageObject(client: Client, c: Collaborators, op: Operation): (r: Result<Value>)
    ensures MessageData(client, c, BuilderOf(op), RulesOf(op), UserProperties(op), Dict(ExtraProperties(op))).Fail?
        ==> r == Fail(MessageData(client, c, BuilderOf(op), RulesOf(op), UserProperties(op), Dict(ExtraProperties(op))).error)
  {
    var data :- MessageData(client, c, BuilderOf(op), RulesOf(op), UserProperties(op), Dict(ExtraProperties(op)));
    Build(c, BuilderOf(op), data)
  }

  /**
   A PeopleSet message carries the client's token and the caller's distinct
   id at the top level unless a super property overrides them; the call's
   distinct id beats one among the user properties.
   */
  lemma PeopleSetCarriesTokenAndDistinctId(client: Client, c: Collaborators, distinctId: Value, properties: Value)
    requires CreateMessageObject(client, c, PeopleSet(distinctId, properties)).Ok?
    requires c.parseProperties(PeopleSetBuilder, NoRules, Dict(ExtraPropertiesForDistinctId(distinctId)))
          == Ok(ExtraPropertiesForDistinctId(distinctId))
    requires c.parseProperties(PeopleSetBuilder, NoRules, client.superProperties).Ok?
    requires PN.Token !in KeySet(c.parseProperties(PeopleSetBuilder, NoRules, client.superProperties).value)
    requires PN.DistinctId !in KeySet(c.parseProperties(PeopleSetBuilder, NoRules, client.superProperties).value)
    ensures var msg := CreateMessageObject(client, c, PeopleSet(distinctId, properties)).value;
      && msg.Dict?
      && Find(msg.entries, "$token") == Some(Str(client.token))
      && Find(msg.entries, "$distinct_id") == Some(distinctId)
  {
    var op := PeopleSet(distinctId, properties);
    var extra := ExtraPropertiesForDistinctId(distinctId);
    var data := MessageData(client, c, PeopleSetBuilder, NoRules, properties, Dict(extra)).value;
    MessageDataPrecedence(client, c, PeopleSetBuilder, NoRules, properties, Dict(extra), PN.Token);
    MessageDataPrecedence(client, c, PeopleSetBuilder, NoRules, properties, Dict(extra), PN.DistinctId);
    LastValueUnique(extra, PN.Token);
    LastValueUnique(extra, PN.DistinctId);
    assert CreateMessageObject(client, c, op) == Build(c, PeopleSetBuilder, data);
  }

  // ---------------------------------------------------------------------
  // Encoding, sending and testing
  // ---------------------------------------------------------------------

  /** A call of the error logger: the message and the exception. */
  datatype LogEntry = LogEntry(message: string, error: Error)

  /** `LogError`: the logger is called only when one is configured. */
  function LogError(c: Collaborators, message: string, error: Error): (r: Option<LogEntry>)
    ensures r.Some? <==> c.hasErrorLogger
    ensures r.Some? ==> r.value.message == message && r.value.error == error
  {
    if c.hasErrorLogger then Some(LogEntry(message, error)) else None
  }

  /** `GetFormData`: `data=` followed by the base64 of the message's JSON. */
  function GetFormData(c: Collaborators, obj: Value): (r: Result<string>)
    ensures r.Ok? <==> c.serializeJson(obj).Ok? && c.encodeBase64(c.serializeJson(obj).value).Ok?
    ensures r.Ok? ==> |r.value| >= 5 && r.value[..5] == "data=" && r.value[5..] == c.encodeBase64(c.serializeJson(obj).value).value
    ensures c.serializeJson(obj).Fail? ==> r == Fail(c.serializeJson(obj).error)
    ensures c.serializeJson(obj).Ok? && c.encodeBase64(c.serializeJson(obj).value).Fail?
        ==> r == Fail(c.encodeBase64(c.serializeJson(obj).value).error)
  {
    var json :- c.serializeJson(obj);
    var base64 :- c.encodeBase64(json);
    Ok("data=" + base64)
  }

  /** What sending did: the result returned, the post made (URL and form data), the error logged. */
  datatype SendOutcome = SendOutcome(success: bool, posted: Option<(string, string)>, logged: Option<LogEntry>)

  /**
   `SendMessage`: a failure to encode is logged as an error creating the
   message and returns false without posting; a failing post is logged with
   its URL and data and returns false; otherwise the post's own result is
   returned and nothing is logged.
   */
  function SendMessage(c: Collaborators, obj: Value, endpoint: string, messageType: string): (r: SendOutcome)
    ensures r.posted.Some? <==> GetFormData(c, obj).Ok?
    ensures r.posted.Some? ==> r.posted.value == (Url(endpoint), GetFormData(c, obj).value)
    ensures GetFormData(c, obj).Fail?
        ==> !r.success
            && r.logged == LogError(c, "Error creating '" + messageType + "' object.", GetFormData(c, obj).error)
    ensures r.posted.Some? && c.httpPost(r.posted.value.0, r.posted.value.1).Fail?
        ==> !r.success
            && r.logged == LogError(c, "POST fails to '" + r.posted.value.0 + "' with data '" + r.posted.value.1 + "'",
                                    c.httpPost(r.posted.value.0, r.posted.value.1).error)
    ensures r.posted.Some? && c.httpPost(r.posted.value.0, r.posted.value.1).Ok?
        ==> r.success == c.httpPost(r.posted.value.0, r.posted.value.1).value && r.logged.None?
    ensures r.success ==> r.posted.Some? && c.httpPost(r.posted.value.0, r.posted.value.1) == Ok(true)
    ensures r.logged.Some? ==> !r.success
  {
    var url := Url(endpoint);
    match GetFormData(c, obj)
    case Fail(e) =>
      SendOutcome(false, None, LogError(c, "Error creating '" + messageType + "' object.", e))
    case Ok(formData) =>
      match c.httpPost(url, formData)
      case Fail(e) =>
        SendOutcome(false, Some((url, formData)), LogError(c, "POST fails to '" + url + "' with data '" + formData + "'", e))
      case Ok(ok) => SendOutcome(ok, Some((url, formData)), None)
  }

  /**
   The live operations (`Track`, `Alias`, `PeopleSet`, ...): the message is
   built before sending, outside `SendMessage`'s error handling, so a failure
   to build it escapes as the operation's exception instead of becoming false.
   */
  function Dispatch(client: Client, c: Collaborators, op: Operation): (r: Result<SendOutcome>)
    ensures r.Fail? <==> CreateMessageObject(client, c, op).Fail?
    ensures r.Fail? ==> r.error == CreateMessageObject(client, c, op).error
    ensures r.Ok? ==> r.value == SendMessage(c, CreateMessageObject(client, c, op).value, Endpoint(op), MessageType(op))
  {
    var obj :- CreateMessageObject(client, c, op);
    Ok(SendMessage(c, obj, Endpoint(op), MessageType(op)))
  }

  /** `MixpanelMessageTest`: each stage's product and the exception that stopped the pipeline. */
  datatype MessageTest = MessageTest(data: Option<Value>, json: Option<string>, base64: Option<string>,
                                     exception: Option<Error>)

  /**
   `TestMessage`: build, serialize, encode. The first failing stage records
   its exception and stops, leaving the later stages unset; when every stage
   succeeds all three products are set and no exception is.
   */
  function TestMessage(c: Collaborators, create: Result<Value>): (r: MessageTest)
    ensures r.exception.None? <==> r.base64.Some?
    ensures r.base64.Some? ==> r.json.Some?
    ensures r.json.Some? ==> r.data.Some?
    ensures r.data.Some? <==> create.Ok?
    ensures r.data.Some? ==> r.data.value == create.value
    ensures r.json.Some? <==> r.data.Some? && c.serializeJson(r.data.value).Ok?
    ensures r.json.Some? ==> r.json.value == c.serializeJson(r.data.value).value
    ensures r.base64.Some? <==> r.json.Some? && c.encodeBase64(r.json.value).Ok?
    ensures r.base64.Some? ==> r.base64.value == c.encodeBase64(r.json.value).value
    ensures create.Fail? ==> r.exception == Some(create.error)
    ensures r.data.Some? && r.json.None? ==> r.exception == Some(c.serializeJson(r.data.value).error)
    ensures r.json.Some? && r.base64.None? ==> r.exception == Some(c.encodeBase64(r.json.value).error)
  {
    match create
    case Fail(e) => MessageTest(None, None, None, Some(e))
    case Ok(data) =>
      match c.serializeJson(data)
      case Fail(e) => MessageTest(Some(data), None, None, Some(e))
      case Ok(json) =>
        match c.encodeBase64(json)
        case Fail(e) => MessageTest(Some(data), Some(json), None, Some(e))
        case Ok(base64) => MessageTest(Some(data), Some(json), Some(base64), None)
  }

  /** The `*Test` entries; PeopleSetOnce has none. */
  function DispatchTest(client: Client, c: Collaborators, op: Operation): (r: Option<MessageTest>)
    ensures r.None? <==> op.PeopleSetOnce?
    ensures r.Some? ==> r.value == TestMessage(c, CreateMessageObject(client, c, op))
  {
    if op.PeopleSetOnce? then None else Some(TestMessage(c, CreateMessageObject(client, c, op)))
  }

  /**
   The test entry and the live operation agree: when the test pipeline
   completes, the live call posts exactly `data=` plus the test's base64 to
   the operation's URL; when building fails, the live call fails with the same
   exception; when only encoding fails, the live call returns false without
   posting.
   */
  lemma TestAndSendAgree(client: Client, c: Collaborators, op: Operation)
    requires !op.PeopleSetOnce?
    ensures var t := DispatchTest(client, c, op).value;
      var s := Dispatch(client, c, op);
      && (t.base64.Some? ==> s.Ok? && s.value.posted == Some((Url(Endpoint(op)), "data=" + t.base64.value)))
      && (t.data.None? ==> s.Fail? && t.exception == Some(s.error))
      && (t.data.Some? && t.base64.None? ==> s.Ok? && !s.value.success && s.value.posted.None?)
      && (t.data.Some? && t.base64.None?
          ==> s.value.logged == LogError(c, "Error creating '" + MessageType(op) + "' object.", t.exception.value))
  {
  }
}
