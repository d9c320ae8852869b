/**
Normalising provider webhooks: how the message identifier and the event identifier are picked out of an
arbitrary JSON payload.
 */
module Normalizer {
  import opened Strings

  /** A decoded JSON payload.  `shown` is what `str` prints; `canonical` drops the fraction of a whole float. */
  datatype Value =
    | Null
    | Bool(flag: bool)
    | Num(shown: string, canonical: string)
    | Text(text: string)
    | List(items: seq<Value>, shown: string)
    | Dict(fields: map<string, Value>, shown: string)

  type Payload = map<string, Value>

  /** `_s`: a canonical string, blank for null. */
  function Canonical(v: Value): string {
    match v
    case Null => ""
    case Bool(flag) => if flag then "true" else "false"
    case Num(_, canonical) => canonical
    case Text(text) => Strip(text)
    case List(_, shown) => Strip(shown)
    case Dict(_, shown) => Strip(shown)
  }

  /** `raw.get(key)` */
  function Get(raw: Payload, key: string): Value {
    if key in raw then raw[key] else Null
  }

  function Field(raw: Payload, key: string): string {
    Canonical(Get(raw, key))
  }

  function Fields(v: Value): Payload {
    if v.Dict? then v.fields else map[]
  }

  const WRAPPERS := ["payload", "data", "body", "webhook"]

  /** `_unwrap_nested`: the inner dictionary of an obvious wrapper, completed with the outer keys. */
  function Unwrapped(raw: Payload): Payload {
    UnwrapFirst(raw, WRAPPERS)
  }

  predicate LooksInner(inner: Value) {
    inner.Dict? && ("message" in inner.fields || "original_message" in inner.fields
                    || "status" in inner.fields || "bounce" in inner.fields)
  }

  function Completed(raw: Payload, wrapper: string): Payload
    requires Get(raw, wrapper).Dict?
  {
    var inner := Get(raw, wrapper).fields;
    map k | k in inner.Keys + raw.Keys && (k in inner || k != wrapper) :: if k in inner then inner[k] else raw[k]
  }

  function UnwrapFirst(raw: Payload, keys: seq<string>): Payload {
    if keys == [] then raw
    else if LooksInner(Get(raw, keys[0])) then Completed(raw, keys[0]) else UnwrapFirst(raw, keys[1..])
  }

  /** `_message_blob`: the first dictionary found along the known paths. */
  function MessageBlob(raw: Payload): Payload {
    if Get(raw, "message").Dict? then Get(raw, "message").fields
    else if Get(raw, "original_message").Dict? then Get(raw, "original_message").fields
    else if Get(Fields(Get(raw, "payload")), "message").Dict? then Get(Fields(Get(raw, "payload")), "message").fields
    else if Get(Fields(Get(raw, "data")), "message").Dict? then Get(Fields(Get(raw, "data")), "message").fields
    else map[]
  }

  /** Every place the identifier may stand in, in order of preference. */
  function Places(raw: Payload): seq<Value> {
    [Get(raw, "message_id"), Get(raw, "id"), Get(raw, "token")] + OwnPlaces(MessageBlob(raw))
    + OwnPlaces(Fields(Get(raw, "original_message"))) + OwnPlaces(Fields(Get(raw, "message")))
  }

  function OwnPlaces(message: Payload): seq<Value> {
    [Get(message, "id"), Get(message, "token"), Get(message, "message_id")]
  }

  function FirstNonBlank(places: seq<Value>): string {
    if places == [] then "" else OrElse(Canonical(places[0]), FirstNonBlank(places[1..]))
  }

  function PickMessageId(raw: Payload): string {
    FirstNonBlank(Places(raw))
  }

  /** The non-blank identifiers without repetition, in order. */
  function Collected(places: seq<Value>): seq<string> {
    if places == [] then []
    else
      var out, s := Collected(places[..|places| - 1]), Canonical(places[|places| - 1]);
      if s != "" && s !in out then out + [s] else out
  }

  lemma {:induction false} CollectedIsDistinct(places: seq<Value>)
    ensures forall i, j :: 0 <= i < j < |Collected(places)| ==> Collected(places)[i] != Collected(places)[j]
  {
    if places != [] {
      CollectedIsDistinct(places[..|places| - 1]);
    }
  }

  lemma {:induction false} CollectedIsComplete(places: seq<Value>, k: nat)
    requires k < |places| && Canonical(places[k]) != ""
    ensures Canonical(places[k]) in Collected(places)
  {
    if k < |places| - 1 {
      CollectedIsComplete(places[..|places| - 1], k);
    }
  }

  lemma {:induction false} CollectedStartsWithFirst(places: seq<Value>)
    ensures FirstNonBlank(places) == if Collected(places) == [] then "" else Collected(places)[0]
  {
    if places != [] {
      var init, last := places[..|places| - 1], places[|places| - 1];
      CollectedStartsWithFirst(init);
      FirstNonBlankSnoc(init, last);
      assert places == init + [last];
      NonBlankFirst(init);
    }
  }

  lemma {:induction false} NonBlankFirst(places: seq<Value>)
    ensures Collected(places) != [] ==> Collected(places)[0] != ""
  {
    if places != [] {
      NonBlankFirst(places[..|places| - 1]);
    }
  }

  lemma {:induction false} FirstNonBlankSnoc(places: seq<Value>, v: Value)
    ensures FirstNonBlank(places + [v]) == OrElse(FirstNonBlank(places), Canonical(v))
  {
    if places == [] {
      assert [v][1..] == [];
    } else {
      assert (places + [v])[1..] == places[1..] + [v];
      FirstNonBlankSnoc(places[1..], v);
    }
  }

  /** `_postal_message_id_candidates`, filling a list and a set; the pick is the first candidate. */
  method MessageIdCandidates(raw: Payload) returns (out: seq<string>)
    ensures out == Collected(Places(raw))
    ensures PickMessageId(raw) == if out == [] then "" else out[0]
  {
    out := CollectCanonical(Places(raw));
    CollectedStartsWithFirst(Places(raw));
  }

  method CollectCanonical(places: seq<Value>) returns (out: seq<string>)
    ensures out == Collected(places)
  {
    out := [];
    var seen: set<string> := {};
    for i := 0 to |places|
      invariant forall s :: s in seen <==> s in out
      invariant out == Collected(places[..i])
    {
      var s := Canonical(places[i]);
      assert places[..i + 1][..i] == places[..i];
      if s != "" && s !in seen {
        seen := seen + {s};
        out := out + [s];
      }
    }
    assert places[..|places|] == places;
  }

  /** `_provider_event_id_postal` */
  function PostalEventId(raw: Payload): string {
    var direct := DirectEventId(raw, ["uuid", "id", "event_id", "webhook_id"]);
    var bounce, original := Fields(Get(raw, "bounce")), Fields(Get(raw, "original_message"));
    var bounceId := OrElse(Field(bounce, "id"), Field(bounce, "token"));
    var originalId := OrElse(Field(original, "id"), Field(original, "token"));
    var status, event, mid := Field(raw, "status"), Field(raw, "event"), PickMessageId(raw);
    if direct != "" then direct
    else if bounceId != "" then "bounce:" + bounceId
    else if originalId != "" then "orig:" + originalId
    else if mid != "" || status != "" || event != "" then
      "hash:" + mid + ":" + status + ":" + event + ":" + Shown(Get(raw, "timestamp"))
    else ""
  }

  function DirectEventId(raw: Payload, keys: seq<string>): string {
    if keys == [] then ""
    else
      var s := Field(raw, keys[0]);
      if s != "" && s != "message" && s != "payload" then s else DirectEventId(raw, keys[1..])
  }

  /** `str(v)` */
  function Shown(v: Value): string {
    match v
    case Null => "None"
    case Bool(flag) => if flag then "True" else "False"
    case Num(shown, _) => shown
    case Text(text) => text
    case List(_, shown) => shown
    case Dict(_, shown) => shown
  }

  /** How the two ways to print a value relate: identifiers are stripped, booleans lower-cased, and null is blank. */
  lemma CanonicalOfShown(v: Value)
    ensures v.Null? ==> Canonical(v) == "" && Shown(v) == "None"
    ensures v.Bool? ==> Canonical(v) == Lower(Shown(v)) && (Shown(v) == "True" <==> v.flag)
    ensures v.Text? || v.List? || v.Dict? ==> Canonical(v) == Strip(Shown(v))
  {
    assert Lower("True") == "true" && Lower("False") == "false";
  }

  /** The two identifiers of a normalised event. */
  datatype Identity = Identity(message: string, event: string)

  function NormalizePostal(raw: Payload): Identity {
    var inner := Unwrapped(raw);
    Identity(PickMessageId(inner), PostalEventId(inner))
  }

  predicate Truthy(v: Value) {
    match v
    case Null => false
    case Bool(flag) => flag
    case Num(shown, _) => shown !in {"0", "0.0", "-0.0"}
    case Text(text) => text != ""
    case List(items, _) => items != []
    case Dict(fields, _) => fields != map[]
  }

  function FirstTruthy(values: seq<Value>): Value {
    if values == [] then Null else if |values| == 1 || Truthy(values[0]) then values[0] else FirstTruthy(values[1..])
  }

  function NormalizeGeneric(raw: Payload): Identity {
    Identity(
      Canonical(FirstTruthy([Get(raw, "message_id"), Get(raw, "id"), Get(Fields(Get(raw, "message")), "id"),
                             Get(Fields(Get(Fields(Get(raw, "payload")), "message")), "id")])),
      Canonical(FirstTruthy([Get(raw, "uuid"), Get(raw, "id"), Text("")])))
  }

  lemma {:induction false} FirstNonBlankConcat(a: seq<Value>, b: seq<Value>)
    ensures FirstNonBlank(a + b) == OrElse(FirstNonBlank(a), FirstNonBlank(b))
  {
    if a == [] {
      assert a + b == b;
    } else {
      assert (a + b)[1..] == a[1..] + b;
      FirstNonBlankConcat(a[1..], b);
    }
  }

  lemma FirstOfThree(a: Value, b: Value, c: Value)
    ensures FirstNonBlank([a, b, c]) == OrElse(Canonical(a), OrElse(Canonical(b), Canonical(c)))
  {
    assert [a, b, c][1..] == [b, c] && [b, c][1..] == [c] && [c][1..] == [];
    assert FirstNonBlank([c]) == Canonical(c);
    assert FirstNonBlank([b, c]) == OrElse(Canonical(b), Canonical(c));
  }

  /** A message dictionary's own identifier. */
  function IdOf(message: Payload): string {
    OrElse(Field(message, "id"), OrElse(Field(message, "token"), Field(message, "message_id")))
  }

  lemma OwnPlacesGiveId(message: Payload)
    ensures FirstNonBlank(OwnPlaces(message)) == IdOf(message)
  {
    FirstOfThree(Get(message, "id"), Get(message, "token"), Get(message, "message_id"));
  }

  /** The message identifier is looked for at the top first, by these names in this order, then inside the first message
      dictionary found, and then inside the original message. */
  lemma IdentifierByPreference(raw: Payload)
    ensures var top := if Field(raw, "message_id") != "" then Field(raw, "message_id")
                       else if Field(raw, "id") != "" then Field(raw, "id") else Field(raw, "token");
            var original, message := Fields(Get(raw, "original_message")), Fields(Get(raw, "message"));
            PickMessageId(raw) == if top != "" then top
                                  else if IdOf(MessageBlob(raw)) != "" then IdOf(MessageBlob(raw))
                                  else if IdOf(original) != "" then IdOf(original) else IdOf(message)
  {
    var top := [Get(raw, "message_id"), Get(raw, "id"), Get(raw, "token")];
    var blob, original, message := MessageBlob(raw), Fields(Get(raw, "original_message")), Fields(Get(raw, "message"));
    FirstOfThree(top[0], top[1], top[2]);
    OwnPlacesGiveId(blob);
    OwnPlacesGiveId(original);
    OwnPlacesGiveId(message);
    FirstNonBlankConcat(top, OwnPlaces(blob));
    FirstNonBlankConcat(top + OwnPlaces(blob), OwnPlaces(original));
    FirstNonBlankConcat(top + OwnPlaces(blob) + OwnPlaces(original), OwnPlaces(message));
  }

  /** An event goes by its own identifier if it has one under the first of these names, unless that is only the name of a
      wrapper; then by its bounce's or its original message's; and then by what it says of which message when. */
  lemma EventIdentifierByPreference(raw: Payload)
    ensures var uuid, id := Field(raw, "uuid"), Field(raw, "id");
            && (uuid != "" && uuid != "message" && uuid != "payload" ==> PostalEventId(raw) == uuid)
            && (uuid == "" && id != "" && id != "message" && id != "payload" ==> PostalEventId(raw) == id)
    ensures Field(raw, "uuid") == Field(raw, "id") == Field(raw, "event_id") == Field(raw, "webhook_id") == "" ==>
              var bounce, original := Fields(Get(raw, "bounce")), Fields(Get(raw, "original_message"));
              var ofBounce := OrElse(Field(bounce, "id"), Field(bounce, "token"));
              var ofOriginal := OrElse(Field(original, "id"), Field(original, "token"));
              PostalEventId(raw)
              == if ofBounce != "" then "bounce:" + ofBounce else if ofOriginal != "" then "orig:" + ofOriginal
                 else if PickMessageId(raw) == Field(raw, "status") == Field(raw, "event") == "" then ""
                 else "hash:" + PickMessageId(raw) + ":" + Field(raw, "status") + ":" + Field(raw, "event") + ":"
                      + Shown(Get(raw, "timestamp"))
  {
    var keys := ["uuid", "id", "event_id", "webhook_id"];
    NextKey(raw, keys, 0);
    NextKey(raw, keys, 1);
    NextKey(raw, keys, 2);
    NextKey(raw, keys, 3);
    assert keys[0..] == keys && keys[4..] == [];
  }

  lemma NextKey(raw: Payload, keys: seq<string>, k: nat)
    requires k < |keys|
    ensures var s := Field(raw, keys[k]);
            DirectEventId(raw, keys[k..])
            == if s != "" && s != "message" && s != "payload" then s else DirectEventId(raw, keys[k + 1..])
  {
    assert keys[k..][1..] == keys[k + 1..];
  }

  /** The dictionary a message is read from: `message`, else `original_message`, else the one inside `payload` or `data`. */
  lemma MessageDictionaryByPreference(raw: Payload)
    ensures var inPayload, inData := Get(Fields(Get(raw, "payload")), "message"), Get(Fields(Get(raw, "data")), "message");
            MessageBlob(raw) == if Get(raw, "message").Dict? then Get(raw, "message").fields
                                else if Get(raw, "original_message").Dict? then Get(raw, "original_message").fields
                                else if inPayload.Dict? then inPayload.fields else Fields(inData)
  {
  }

  lemma {:induction false} UnwrapSkips(raw: Payload, keys: seq<string>, k: nat)
    requires k <= |keys| && forall j :: 0 <= j < k ==> !LooksInner(Get(raw, keys[j]))
    ensures UnwrapFirst(raw, keys) == UnwrapFirst(raw, keys[k..])
  {
    if k > 0 {
      UnwrapSkips(raw, keys[1..], k - 1);
      assert keys[1..][k - 1..] == keys[k..];
    } else {
      assert keys[0..] == keys;
    }
  }

  /** A payload in the first of the four wrappers that looks like one is read as its inner dictionary, completed with the
      outer keys it lacks but for the wrapper's own. */
  lemma WrapperIsRemoved(raw: Payload, k: nat, key: string)
    requires k < 4 && LooksInner(Get(raw, WRAPPERS[k])) && forall j :: 0 <= j < k ==> !LooksInner(Get(raw, WRAPPERS[j]))
    ensures var inner, wrapper := Get(raw, WRAPPERS[k]).fields, ["payload", "data", "body", "webhook"][k];
            && (key in inner ==> key in Unwrapped(raw) && Unwrapped(raw)[key] == inner[key])
            && (key !in inner && key != wrapper && key in raw ==> key in Unwrapped(raw) && Unwrapped(raw)[key] == raw[key])
            && (key !in inner && (key == wrapper || key !in raw) ==> key !in Unwrapped(raw))
  {
    UnwrapSkips(raw, WRAPPERS, k);
  }

  /** And a payload in none of them as it is. */
  lemma UnwrappedStays(raw: Payload)
    requires forall j :: 0 <= j < 4 ==> !LooksInner(Get(raw, WRAPPERS[j]))
    ensures Unwrapped(raw) == raw
  {
    UnwrapSkips(raw, WRAPPERS, 4);
  }

  /** Other providers' messages go by the first of these that is not empty, false or zero. */
  lemma GenericIdentifierByPreference(raw: Payload)
    ensures var nested := Get(Fields(Get(raw, "message")), "id");
            var deep := Get(Fields(Get(Fields(Get(raw, "payload")), "message")), "id");
            NormalizeGeneric(raw).message == if Truthy(Get(raw, "message_id")) then Field(raw, "message_id")
                                             else if Truthy(Get(raw, "id")) then Field(raw, "id")
                                             else if Truthy(nested) then Canonical(nested) else Canonical(deep)
    ensures NormalizeGeneric(raw).event == if Truthy(Get(raw, "uuid")) then Field(raw, "uuid")
                                           else if Truthy(Get(raw, "id")) then Field(raw, "id") else ""
  {
    var nested := Get(Fields(Get(raw, "message")), "id");
    var deep := Get(Fields(Get(Fields(Get(raw, "payload")), "message")), "id");
    var mid, id, uuid := Get(raw, "message_id"), Get(raw, "id"), Get(raw, "uuid");
    FirstTruthyStep(mid, [id, nested, deep]);
    FirstTruthyStep(id, [nested, deep]);
    FirstTruthyStep(nested, [deep]);
    FirstTruthyStep(uuid, [id, Text("")]);
    FirstTruthyStep(id, [Text("")]);
    assert [mid] + [id, nested, deep] == [mid, id, nested, deep] && [id] + [nested, deep] == [id, nested, deep];
    assert [nested] + [deep] == [nested, deep] && [uuid] + [id, Text("")] == [uuid, id, Text("")];
    assert [id] + [Text("")] == [id, Text("")] && Strip("") == "";
  }

  lemma FirstTruthyStep(v: Value, rest: seq<Value>)
    requires rest != []
    ensures FirstTruthy([v] + rest) == if Truthy(v) then v else FirstTruthy(rest)
  {
    assert ([v] + rest)[1..] == rest;
  }

  /** A normalised Postal event that names a message always has an event identifier, so it can be
      recognised when it is delivered again. */
  lemma PostalEventsAreIdentified(raw: Payload)
    ensures NormalizePostal(raw).message != "" ==> NormalizePostal(raw).event != ""
  {
  }

  /** Other providers' events are identified only if their `uuid`, or failing that their `id`, is not blank. */
  lemma GenericEventsAreIdentifiedIff(raw: Payload)
    ensures NormalizeGeneric(raw).event != ""
       <==> if Truthy(Get(raw, "uuid")) then Field(raw, "uuid") != "" else Truthy(Get(raw, "id")) && Field(raw, "id") != ""
  {
    var uuid, id := Get(raw, "uuid"), Get(raw, "id");
    assert [uuid, id, Text("")][1..] == [id, Text("")] && [id, Text("")][1..] == [Text("")];
    assert FirstTruthy([id, Text("")]) == if Truthy(id) then id else Text("");
    assert Strip("") == "";
  }

  /** So some are not: an event that names its message only by `message_id` has none. */
  lemma GenericEventsMayBeAnonymous()
    ensures var raw: Payload := map["message_id" := Text("m1"), "event" := Text("bounce")];
            NormalizeGeneric(raw) == Identity("m1", "")
  {
  }
}
