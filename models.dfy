/**
 * The two document shapes of the database (the user and venue schemas) and the
 * collection lookups the handlers perform, with the collections as sequences.
 */
module Models {
  import opened Common
  import Strings
  import Hex

  /** A database identifier: twelve bytes. */
  type ObjectId = b: seq<Hex.byte> | |b| == 12 witness seq(12, _ => 0 as Hex.byte)

  /** `id.toString()`: the identifier as 24 lower-case hexadecimal digits. */
  function IdString(id: ObjectId): (s: string)
    ensures |s| == 24 && Hex.IsLowerHex(s)
  {
    Hex.Encode(id)
  }

  /** Distinct identifiers have distinct string forms. */
  lemma IdStringInjective(a: ObjectId, b: ObjectId)
    requires IdString(a) == IdString(b)
    ensures a == b
  {
    Hex.EncodeInjective(a, b);
  }

  /** Everything a user document holds besides its `_id` and `password`. */
  datatype Profile = Profile(username: string, name: string, email: string, createdAt: int)

  /** A stored user document. */
  datatype User = User(id: ObjectId, password: string, profile: Profile)

  /** A user as the handlers send it out: `_id` as a string, no `password` field. */
  datatype PublicUser = PublicUser(id: string, profile: Profile)

  /**
   * The stored record minus `password`, with `_id` turned into a string: everything else is
   * kept, and the string reads back as the identifier.
   */
  function PublicView(u: User): (p: PublicUser)
    ensures p.profile == u.profile
    ensures |p.id| == 24 && Hex.IsLowerHex(p.id) && Hex.Decode(p.id) == u.id
  {
    Hex.DecodeEncode(u.id);
    PublicUser(IdString(u.id), u.profile)
  }

  /** Everything a venue document holds besides its `_id`. */
  datatype VenueFields = VenueFields(
    name: string,
    capacity: int,
    additionalMetric: Option<int>,
    phone: string,
    address: string,
    price: int,
    email: Option<string>,
    ownerId: Option<ObjectId>,
    createdAt: int)

  /** A stored venue document. */
  datatype Venue = Venue(id: ObjectId, fields: VenueFields)

  /** A venue as the listing sends it out: `_id` as a string, all other fields copied. */
  datatype VenueView = VenueView(id: string, fields: VenueFields)

  /** `User.findOne({ username })`: the first stored user with that username. */
  function FindByUsername(users: seq<User>, username: string): (r: Option<User>)
    ensures r.Some? ==> r.value in users && r.value.profile.username == username
    ensures r.None? <==> forall k :: 0 <= k < |users| ==> users[k].profile.username != username
  {
    if users == [] then None
    else if users[0].profile.username == username then Some(users[0])
    else FindByUsername(users[1..], username)
  }

  /**
   * `User.findById(id)`: the first stored user whose identifier has that string form.
   * The cast to an identifier reads hexadecimal digits in either case, so the
   * comparison is with the lower-cased string.
   */
  function FindById(users: seq<User>, id: string): (r: Option<User>)
    ensures r.Some? ==> r.value in users && IdString(r.value.id) == Strings.Lower(id)
    ensures r.None? <==> forall k :: 0 <= k < |users| ==> IdString(users[k].id) != Strings.Lower(id)
  {
    if users == [] then None
    else if IdString(users[0].id) == Strings.Lower(id) then Some(users[0])
    else FindById(users[1..], id)
  }

  /** Lower-case hexadecimal text is left as it is by lower-casing. */
  lemma LowerHexUnchanged(s: string)
    requires Hex.IsLowerHex(s)
    ensures Strings.Lower(s) == s
  {
    forall i | 0 <= i < |s|
      ensures Strings.Lower(s)[i] == s[i]
    {
      assert Hex.IsLowerHexDigit(s[i]);
    }
  }

  /** Looking up the string form of an identifier finds a user with exactly that identifier, if one is stored. */
  lemma FindByIdString(users: seq<User>, id: ObjectId)
    ensures var r := FindById(users, IdString(id));
      && (r.Some? ==> r.value in users && r.value.id == id)
      && (r.None? <==> forall k :: 0 <= k < |users| ==> users[k].id != id)
  {
    LowerHexUnchanged(IdString(id));
    var r := FindById(users, IdString(id));
    if r.Some? {
      IdStringInjective(r.value.id, id);
    }
    forall k | 0 <= k < |users| && users[k].id == id
      ensures r.Some?
    {
      assert IdString(users[k].id) == Strings.Lower(IdString(id));
    }
  }

  /** A user appended under a fresh username is the one `findOne` returns for it. */
  lemma {:induction false} FindAppended(users: seq<User>, u: User)
    requires FindByUsername(users, u.profile.username).None?
    ensures FindByUsername(users + [u], u.profile.username) == Some(u)
  {
    if users != [] {
      assert (users + [u])[1..] == users[1..] + [u];
      FindAppended(users[1..], u);
    }
  }
}
