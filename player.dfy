/** The player record of Game/Networking/Player.cs and its encoding into a
    string-keyed dictionary of boxed values (what travels in an RPC). */
module PlayerRecord {

  /** A C# `int`: 32-bit two's complement. */
  newtype int32 = x: int | -0x8000_0000 <= x < 0x8000_0000

  datatype Option<T> = None | Some(value: T)

  datatype Result<T, E> = Success(value: T) | Failure(error: E)

  /** Godot's `Color` struct. Its components are never inspected, only copied and
      compared for equality; `real` stands in for the 32-bit floats. */
  datatype Color = Color(r: real, g: real, b: real, a: real)

  /** `default(Color)`: the colour of a `Player` whose `Color` nobody assigned. */
  const DEFAULT_COLOR := Color(0.0, 0.0, 0.0, 0.0)

  /** A `Player`; `name == None` stands for a null `Name` reference. */
  datatype Player = Player(name: Option<string>, networkId: int32, color: Color)

  /** An `object` held by a Godot dictionary: null, or a boxed value of some runtime type. */
  datatype Value =
    | Nil
    | Str(s: string)
    | Int(n: int32)
    | Col(c: Color)
    | Other(typeName: string)  // a boxed value of any other type (a long, a float, a bool, ...)

  /** A `Godot.Collections.Dictionary<string, object>`. */
  type Payload = map<string, Value>

  const NAME_KEY := "Name"
  const NETWORK_ID_KEY := "NetworkId"
  const COLOR_KEY := "Color"

  /** The keys `ToGodotDictionary` writes and `PopulateFromGodotDictionary` reads. */
  const FIELD_KEYS: set<string> := {NAME_KEY, NETWORK_ID_KEY, COLOR_KEY}

  /** The exception a cast in `PopulateFromGodotDictionary` throws: unboxing null
      into a value type, or casting an object of the wrong runtime type. */
  datatype DecodeError = NullUnbox(key: string) | InvalidCast(key: string)

  /** `TryGetValue`: a missing key leaves its out-argument null. */
  function Lookup(m: Payload, key: string): Value
  {
    if key in m then m[key] else Nil
  }

  function NameValue(name: Option<string>): Value
  {
    if name.Some? then Str(name.value) else Nil
  }

  /** `ToGodotDictionary`. */
  function Encode(p: Player): Payload
  {
    map[NAME_KEY := NameValue(p.name), NETWORK_ID_KEY := Int(p.networkId), COLOR_KEY := Col(p.color)]
  }

  /** `PopulateFromGodotDictionary`: the casts run in source order (Name, NetworkId,
      Color) and the first one that fails ends the call. `(string)` accepts null;
      `(int)` and `(Color)` do not. */
  function Decode(m: Payload): Result<Player, DecodeError>
  {
    var name := Lookup(m, NAME_KEY);
    var id := Lookup(m, NETWORK_ID_KEY);
    var color := Lookup(m, COLOR_KEY);
    if !(name.Nil? || name.Str?) then Failure(InvalidCast(NAME_KEY))
    else if id.Nil? then Failure(NullUnbox(NETWORK_ID_KEY))
    else if !id.Int? then Failure(InvalidCast(NETWORK_ID_KEY))
    else if color.Nil? then Failure(NullUnbox(COLOR_KEY))
    else if !color.Col? then Failure(InvalidCast(COLOR_KEY))
    else Success(Player(if name.Str? then Some(name.s) else None, id.n, color.c))
  }

  /** The name cast succeeds: `(string)` accepts null and any string. */
  predicate NameCastOk(m: Payload)
  {
    Lookup(m, NAME_KEY).Nil? || Lookup(m, NAME_KEY).Str?
  }

  /** Every cast in `PopulateFromGodotDictionary` succeeds on `m`. */
  predicate FieldsWellTyped(m: Payload)
  {
    NameCastOk(m)
    && Lookup(m, NETWORK_ID_KEY).Int?
    && Lookup(m, COLOR_KEY).Col?
  }

  /** The encoding has exactly the three field keys, each holding its field. */
  lemma EncodeFields(p: Player)
    ensures Encode(p).Keys == FIELD_KEYS
    ensures Encode(p)[NAME_KEY] == (if p.name.Some? then Str(p.name.value) else Nil)
    ensures Encode(p)[NETWORK_ID_KEY] == Int(p.networkId)
    ensures Encode(p)[COLOR_KEY] == Col(p.color)
  {
  }

  /** Decoding an encoded player gives the same player back. */
  lemma DecodeEncode(p: Player)
    ensures Decode(Encode(p)) == Success(p)
  {
  }

  /** Two players with the same encoding are the same player. */
  lemma EncodeInjective(p: Player, q: Player)
    requires Encode(p) == Encode(q)
    ensures p == q
  {
    DecodeEncode(p);
    DecodeEncode(q);
  }

  /** Decoding fails exactly when one of the three casts fails. */
  lemma DecodeFailsIff(m: Payload)
    ensures Decode(m).Failure? <==> !FieldsWellTyped(m)
  {
  }

  /** The exception each failing cast throws, in source order: a Name of another
      type throws on the cast; a missing or null NetworkId or Color throws on
      unboxing, and one of another type throws on the cast; a missing Name is not
      an error but a null name. */
  lemma DecodeErrors(m: Payload)
    ensures !NameCastOk(m) ==>
            Decode(m) == Failure(InvalidCast(NAME_KEY))
    ensures NameCastOk(m) && Lookup(m, NETWORK_ID_KEY).Nil? ==>
            Decode(m) == Failure(NullUnbox(NETWORK_ID_KEY))
    ensures NameCastOk(m) && !Lookup(m, NETWORK_ID_KEY).Nil? && !Lookup(m, NETWORK_ID_KEY).Int? ==>
            Decode(m) == Failure(InvalidCast(NETWORK_ID_KEY))
    ensures NameCastOk(m) && Lookup(m, NETWORK_ID_KEY).Int? && Lookup(m, COLOR_KEY).Nil? ==>
            Decode(m) == Failure(NullUnbox(COLOR_KEY))
    ensures NameCastOk(m) && Lookup(m, NETWORK_ID_KEY).Int? && !Lookup(m, COLOR_KEY).Nil? && !Lookup(m, COLOR_KEY).Col? ==>
            Decode(m) == Failure(InvalidCast(COLOR_KEY))
    ensures NAME_KEY !in m && FieldsWellTyped(m) ==>
            Decode(m).Success? && Decode(m).value.name == None
  {
  }

  /** Decoding reads only the three field keys: entries under any other key do
      not change its result. */
  lemma DecodeIgnoresExtraKeys(m: Payload, extra: Payload)
    requires extra.Keys !! FIELD_KEYS
    ensures Decode(m + extra) == Decode(m)
  {
    assert Lookup(m + extra, NAME_KEY) == Lookup(m, NAME_KEY);
    assert Lookup(m + extra, NETWORK_ID_KEY) == Lookup(m, NETWORK_ID_KEY);
    assert Lookup(m + extra, COLOR_KEY) == Lookup(m, COLOR_KEY);
  }

  /** A dictionary holding exactly the three keys, each well typed, is re-encoded
      to itself after decoding. */
  lemma EncodeDecode(m: Payload)
    requires m.Keys == FIELD_KEYS && FieldsWellTyped(m)
    ensures Decode(m).Success? && Encode(Decode(m).value) == m
  {
    var e := Encode(Decode(m).value);
    assert e.Keys == m.Keys;
    forall k | k in m ensures e[k] == m[k] {
      assert k == NAME_KEY || k == NETWORK_ID_KEY || k == COLOR_KEY;
    }
  }
}
