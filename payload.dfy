/** The outbound Discord webhook body and the builder that produces it
    (`buildDiscordPayload` of the webhook service). */
module Payload {

  /** The JSON values a caller can place in a message or an options object.
      Objects inside `embeds` are not told apart from arrays, and numbers are
      integers. JavaScript's `null` is not represented: the only empty slot
      is `Undefined`, which is also the only one the builder deletes. */
  datatype Value = Str(s: string) | Bool(b: bool) | Num(n: int) | Arr(items: seq<Value>)

  /** A property slot of a JavaScript object: `undefined`, or a value. */
  datatype Field = Undefined | Defined(value: Value)

  /** JavaScript truthiness of a slot, as `x || false` evaluates it. */
  predicate Truthy(f: Field) {
    match f
    case Undefined => false
    case Defined(Str(s)) => s != ""
    case Defined(Bool(b)) => b
    case Defined(Num(n)) => n != 0
    case Defined(Arr(_)) => true
  }

  /** The caller's message: the builder reads `content` and `embeds` from it. */
  datatype Message = Message(content: Field, embeds: Field)

  /** The caller's options: the builder reads `username`, `avatar_url` and `tts`. */
  datatype Options = Options(username: Field, avatarUrl: Field, tts: Field)

  /** The default `options = {}`. */
  const NoOptions: Options := Options(Undefined, Undefined, Undefined)

  /** The keys of the outbound body; `AvatarUrl` is sent as `avatar_url`. */
  datatype Key = Content | Embeds | Username | AvatarUrl | Tts

  /** `Object.keys` of the literal, in the order the literal writes them. */
  const PayloadKeys: seq<Key> := [Content, Embeds, Username, AvatarUrl, Tts]

  /** A JavaScript object over the payload keys; a key may hold `undefined`. */
  type Object = map<Key, Field>

  /** The object literal before any key is deleted: five keys, `tts`
      defaulted with `options.tts || false`. */
  function BasePayload(message: Message, options: Options): Object {
    map[Content := message.content,
        Embeds := message.embeds,
        Username := options.username,
        AvatarUrl := options.avatarUrl,
        Tts := if Truthy(options.tts) then options.tts else Defined(Bool(false))]
  }

  /** The wire body: the literal with every `undefined` key removed.
      Each key is present exactly when its source is defined, carries its
      source's value, and `tts` is always present. */
  function DiscordPayload(message: Message, options: Options): (p: Object)
    ensures forall k :: k in p ==> p[k].Defined?
    ensures Content in p <==> message.content.Defined?
    ensures Content in p ==> p[Content] == message.content
    ensures Embeds in p <==> message.embeds.Defined?
    ensures Embeds in p ==> p[Embeds] == message.embeds
    ensures Username in p <==> options.username.Defined?
    ensures Username in p ==> p[Username] == options.username
    ensures AvatarUrl in p <==> options.avatarUrl.Defined?
    ensures AvatarUrl in p ==> p[AvatarUrl] == options.avatarUrl
    ensures Tts in p
    ensures Truthy(options.tts) ==> p[Tts] == options.tts
    ensures !Truthy(options.tts) ==> p[Tts] == Defined(Bool(false))
  {
    var base := BasePayload(message, options);
    map k | k in base && base[k].Defined? :: base[k]
  }

  lemma EveryKeyListed(k: Key)
    ensures k in PayloadKeys
  {
    match k
    case Content => assert PayloadKeys[0] == k;
    case Embeds => assert PayloadKeys[1] == k;
    case Username => assert PayloadKeys[2] == k;
    case AvatarUrl => assert PayloadKeys[3] == k;
    case Tts => assert PayloadKeys[4] == k;
  }

  /** Builds the literal, then walks its keys and deletes every key whose
      value is `undefined`, as the `forEach` loop does in place. */
  method BuildDiscordPayload(message: Message, options: Options) returns (payload: Object)
    ensures payload == DiscordPayload(message, options)
  {
    payload := BasePayload(message, options);
    ghost var base := payload;
    var keys := PayloadKeys;
    for i := 0 to |keys|
      invariant forall k :: k in payload ==> k in base && payload[k] == base[k]
      invariant forall k :: k in base && k !in payload ==> base[k] == Undefined
      invariant forall k :: k in keys[..i] && k in payload ==> payload[k].Defined?
      invariant forall k :: k in base && k !in keys[..i] ==> k in payload
    {
      var key := keys[i];
      // A key already gone reads as `undefined`, and deleting it again does nothing.
      if key !in payload || payload[key] == Undefined {
        payload := payload - {key};
      }
      assert keys[..i + 1] == keys[..i] + [key];
    }
    assert keys[..|keys|] == keys;
    forall k | k in payload
      ensures payload[k].Defined?
    {
      EveryKeyListed(k);
    }
  }

  /** `build({content: "hi"}, {})` has exactly the keys `content` and `tts`. */
  lemma ContentOnlyExample()
    ensures DiscordPayload(Message(Defined(Str("hi")), Undefined), NoOptions)
         == map[Content := Defined(Str("hi")), Tts := Defined(Bool(false))]
  {
    var p := DiscordPayload(Message(Defined(Str("hi")), Undefined), NoOptions);
    assert p.Keys == {Content, Tts} by {
      forall k | k in p ensures k == Content || k == Tts {
        match k
        case Content =>
        case Embeds =>
        case Username =>
        case AvatarUrl =>
        case Tts =>
      }
    }
  }
}
