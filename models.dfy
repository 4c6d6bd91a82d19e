/**
 * The backend's stored records (backend/internal/models/user.go) and the
 * 24-character hexadecimal form of a Mongo object id, which the controllers
 * parse from the token's issuer and from the `:id` route parameter.
 */
module Models {
  import opened Wrappers

  /** Seconds since the epoch; Go's `time.Time` at the precision the model needs. */
  type Time = int

  type Byte = b: int | 0 <= b < 256

  /** A Mongo object id: twelve bytes. The zero id (`primitive.ObjectID{}`) is twelve zeros. */
  datatype ObjectId = ObjectId(bytes: seq<Byte>)

  ghost predicate WellFormedId(id: ObjectId)
  {
    |id.bytes| == 12
  }

  datatype User = User(id: ObjectId, name: string, email: string, password: seq<Byte>, roleId: ObjectId)

  /** A stored task; an absent timestamp is Go's zero time. */
  datatype StoredTask = StoredTask(
    id: ObjectId,
    name: string,
    description: string,
    status: bool,
    createdAt: Time,
    updatedAt: Time)

  datatype Permission = Permission(id: ObjectId, name: string, description: string)

  datatype Role = Role(id: ObjectId, name: string, permissions: seq<ObjectId>)

  /** The value of one hexadecimal digit, either case; `None` for any other character. */
  function HexDigit(c: char): (r: Option<nat>)
    ensures r.Some? ==> r.value < 16
  {
    if '0' <= c <= '9' then Some(c as nat - '0' as nat)
    else if 'a' <= c <= 'f' then Some(c as nat - 'a' as nat + 10)
    else if 'A' <= c <= 'F' then Some(c as nat - 'A' as nat + 10)
    else None
  }

  predicate IsHexString(s: string)
  {
    forall i :: 0 <= i < |s| ==> HexDigit(s[i]).Some?
  }

  /** Two hex digits per byte, high digit first. */
  function DecodeHex(s: string): (r: seq<Byte>)
    requires |s| % 2 == 0 && IsHexString(s)
    ensures |r| == |s| / 2
  {
    if s == [] then []
    else [HexDigit(s[0]).value * 16 + HexDigit(s[1]).value] + DecodeHex(s[2..])
  }

  /**
   * `primitive.ObjectIDFromHex`: exactly 24 characters, all hexadecimal
   * digits; anything else is an error.
   */
  function ObjectIdFromHex(s: string): (r: Option<ObjectId>)
    ensures r.Some? <==> |s| == 24 && IsHexString(s)
    ensures r.Some? ==> WellFormedId(r.value)
  {
    if |s| == 24 && IsHexString(s) then Some(ObjectId(DecodeHex(s))) else None
  }

  /** The lower-case digit for a value below 16. */
  function LowerHexDigit(n: nat): char
    requires n < 16
  {
    if n < 10 then ('0' as nat + n) as char else ('a' as nat + n - 10) as char
  }

  /** `ObjectID.Hex()`: each byte as two lower-case hex digits. */
  function EncodeHex(bytes: seq<Byte>): (s: string)
    ensures |s| == 2 * |bytes| && IsHexString(s)
  {
    if bytes == [] then []
    else [LowerHexDigit(bytes[0] / 16), LowerHexDigit(bytes[0] % 16)] + EncodeHex(bytes[1..])
  }

  /** Decoding undoes encoding. */
  lemma {:induction false} DecodeEncode(bytes: seq<Byte>)
    ensures DecodeHex(EncodeHex(bytes)) == bytes
  {
    if bytes != [] {
      var s := EncodeHex(bytes);
      assert s[2..] == EncodeHex(bytes[1..]);
      DecodeEncode(bytes[1..]);
    }
  }

  /** The hex form of a well-formed id parses back to that id. */
  lemma HexRoundTrip(id: ObjectId)
    requires WellFormedId(id)
    ensures ObjectIdFromHex(EncodeHex(id.bytes)) == Some(id)
  {
    DecodeEncode(id.bytes);
  }

  /** The first record whose id is `id`, as `FindOne` by `_id` returns it. */
  function FindUser(users: seq<User>, id: ObjectId): (r: Option<User>)
    ensures r.Some? ==> r.value in users && r.value.id == id
    ensures r.None? <==> forall u :: u in users ==> u.id != id
  {
    if users == [] then None
    else if users[0].id == id then Some(users[0])
    else FindUser(users[1..], id)
  }

  function FindRole(roles: seq<Role>, id: ObjectId): (r: Option<Role>)
    ensures r.Some? ==> r.value in roles && r.value.id == id
    ensures r.None? <==> forall x :: x in roles ==> x.id != id
  {
    if roles == [] then None
    else if roles[0].id == id then Some(roles[0])
    else FindRole(roles[1..], id)
  }

  /**
   * `Find({_id: {$in: role.Permissions}})`: the permissions of the collection
   * whose id the role lists.
   */
  function PermissionsOf(collection: seq<Permission>, role: Role): (r: seq<Permission>)
    ensures forall p :: p in r <==> p in collection && p.id in role.permissions
  {
    if collection == [] then []
    else (if collection[0].id in role.permissions then [collection[0]] else [])
         + PermissionsOf(collection[1..], role)
  }
}
