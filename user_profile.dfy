/**
 * The account endpoints (backend/src/controllers/userProfile.js): the profile update's field
 * whitelist, the password change, the profile-picture checks and stored file name, account
 * deletion with its bulk cancel, and the booking history newest first.
 *
 * The user schema (backend/src/models/User.js), its password hashing and `matchPassword`
 * are not part of this model: the password check is a parameter.
 */
module UserProfile {
  import opened Wrappers
  import opened BookingSchema
  import opened BookingController
  import Sequences

  datatype User = User(
    id: string,
    name: string,
    email: string,
    phone: Option<string>,
    address: Option<string>,
    password: string,
    photo: string,
    role: string)

  /** A `PUT /api/users/profile` body: the four writable fields and whatever else the client sends. */
  datatype ProfileBody = ProfileBody(
    name: Option<string>,
    email: Option<string>,
    phone: Option<string>,
    address: Option<string>,
    currentPassword: Option<string>,
    newPassword: Option<string>,
    role: Option<string>,
    photo: Option<string>)

  /** `fieldsToUpdate`: only name, email, phone and address are taken from the body; a missing one is left as stored. */
  function ApplyProfile(u: User, body: ProfileBody): (r: User)
    ensures r.id == u.id && r.password == u.password && r.photo == u.photo && r.role == u.role
    ensures r.name == (if body.name.Some? then body.name.value else u.name)
    ensures r.email == (if body.email.Some? then body.email.value else u.email)
    ensures r.phone == (if body.phone.Some? then body.phone else u.phone)
    ensures r.address == (if body.address.Some? then body.address else u.address)
  {
    u.(name := if body.name.Some? then body.name.value else u.name,
       email := if body.email.Some? then body.email.value else u.email,
       phone := if body.phone.Some? then body.phone else u.phone,
       address := if body.address.Some? then body.address else u.address)
  }

  /** Two bodies that agree on the four whitelisted fields update a user identically. */
  lemma OnlyWhitelistMatters(u: User, b1: ProfileBody, b2: ProfileBody)
    requires b1.name == b2.name && b1.email == b2.email && b1.phone == b2.phone && b1.address == b2.address
    ensures ApplyProfile(u, b1) == ApplyProfile(u, b2)
  {
  }

  // ================================================================ profile picture

  /** An uploaded file as the upload middleware describes it. */
  datatype UploadedFile = UploadedFile(name: string, mimetype: string, size: int)

  datatype UploadError = NoFile | NotAnImage | TooLarge | MoveFailed | NoSuchUser

  function UploadErrorStatus(e: UploadError): nat
  {
    match e
    case NoFile => 400
    case NotAnImage => 400
    case TooLarge => 400
    case MoveFailed => 500
    case NoSuchUser => 404
  }

  /** The position of the last `c` in `s`. */
  function LastIndexOf(s: string, c: char): (r: Option<nat>)
    ensures r.Some? ==> r.value < |s| && s[r.value] == c && c !in s[r.value + 1..]
    ensures r.None? <==> c !in s
  {
    if s == [] then None
    else if s[|s| - 1] == c then Some(|s| - 1)
    else
      var r := LastIndexOf(s[..|s| - 1], c);
      assert s == s[..|s| - 1] + [s[|s| - 1]];
      if r.Some? then
        assert s[r.value + 1..] == s[..|s| - 1][r.value + 1..] + [s[|s| - 1]];
        r
      else None
  }

  /** The text after the last '/'. */
  function BaseName(s: string): (r: string)
    ensures '/' !in r
  {
    match LastIndexOf(s, '/')
    case None => s
    case Some(k) => s[k + 1..]
  }

  /**
   * `path.parse(name).ext`: from the last '.' of the base name to its end, or "" when there
   * is no dot, when the only dot that counts starts the name (".bashrc"), and for "..".
   */
  function Ext(name: string): (r: string)
    ensures r == [] || (r[0] == '.' && '.' !in r[1..])
    ensures '/' !in r
  {
    var base := BaseName(name);
    match LastIndexOf(base, '.')
    case None => ""
    case Some(k) => if k == 0 || base == ".." then "" else base[k..]
  }

  /** `photo_${userId}${ext}`: the name the picture is stored under. */
  function PhotoName(userId: string, original: string): (r: string)
    ensures r == "photo_" + userId + Ext(original)
  {
    "photo_" + userId + Ext(original)
  }

  /** `file.mimetype.startsWith('image')`. */
  predicate IsImageType(mimetype: string)
  {
    "image" <= mimetype
  }

  /** The checks of `uploadProfilePicture`, in order, and the file name it then stores. */
  function CheckUpload(file: Option<UploadedFile>, maxUpload: int, userId: string): (r: Result<string, UploadError>)
    ensures file.None? <==> r == Err(NoFile)
    ensures file.Some? && !IsImageType(file.value.mimetype) <==> r == Err(NotAnImage)
    ensures file.Some? && IsImageType(file.value.mimetype) && file.value.size > maxUpload <==> r == Err(TooLarge)
    ensures r.Ok? <==> file.Some? && IsImageType(file.value.mimetype) && file.value.size <= maxUpload
    ensures r.Ok? ==> r.value == PhotoName(userId, file.value.name)
  {
    match file
    case None => Err(NoFile)
    case Some(f) =>
      if !IsImageType(f.mimetype) then Err(NotAnImage)
      else if f.size > maxUpload then Err(TooLarge)
      else Ok(PhotoName(userId, f.name))
  }

  lemma {:induction false} LastIndexOfAppend(s: string, t: string, c: char)
    requires c in t
    ensures LastIndexOf(s + t, c).Some? && LastIndexOf(t, c).Some?
    ensures LastIndexOf(s + t, c).value == |s| + LastIndexOf(t, c).value
    decreases |t|
  {
    var st := s + t;
    if t[|t| - 1] != c {
      assert t == t[..|t| - 1] + [t[|t| - 1]];
      assert c in t[..|t| - 1];
      assert st[..|st| - 1] == s + t[..|t| - 1];
      LastIndexOfAppend(s, t[..|t| - 1], c);
    }
  }

  /** A name without '/' is its own base name. */
  lemma BaseNameOfPlain(s: string)
    requires '/' !in s
    ensures BaseName(s) == s
  {
  }

  /** Appending an extension to a non-empty stem without '.' or '/' gives a name with that extension. */
  lemma ExtOfStemAndExt(p: string, e: string)
    requires |p| > 0 && '.' !in p && '/' !in p
    requires e == [] || (e[0] == '.' && '.' !in e[1..])
    requires '/' !in e
    ensures Ext(p + e) == e
  {
    var n := p + e;
    assert '/' !in n;
    BaseNameOfPlain(n);
    if e == [] {
      assert n == p;
    } else {
      LastIndexOfAppend(p, e, '.');
      var k := LastIndexOf(e, '.').value;
      assert k == 0;
      assert n[0] == p[0] && p[0] != '.' && ".."[0] == '.';
      assert n[|p|..] == e;
    }
  }

  /** A user id with no '.' and no '/' keeps the original extension in the stored name. */
  lemma PhotoNameKeepsExtension(userId: string, original: string)
    requires '.' !in userId && '/' !in userId
    ensures Ext(PhotoName(userId, original)) == Ext(original)
  {
    var p := "photo_" + userId;
    assert '/' !in "photo_" && '.' !in "photo_";
    assert p[0] == 'p';
    ExtOfStemAndExt(p, Ext(original));
  }

  // ================================================================ account deletion and history

  /** `Booking.updateMany({ user, status: 'pending' }, { status: 'cancelled' })`. */
  function CancelPendingOf(docs: seq<Booking>, userId: string): (r: seq<Booking>)
    ensures |r| == |docs|
    ensures forall i :: 0 <= i < |docs| ==>
      r[i] == (if docs[i].user == userId && docs[i].status == Pending then docs[i].(status := Cancelled) else docs[i])
  {
    seq(|docs|, i requires 0 <= i < |docs| =>
      if docs[i].user == userId && docs[i].status == Pending then docs[i].(status := Cancelled) else docs[i])
  }

  /**
   * After the bulk cancel the user has no pending booking left; every other booking, and
   * every other field, is as before; a second run changes nothing.
   */
  lemma CancelPendingOfMeaning(docs: seq<Booking>, userId: string)
    ensures forall i :: 0 <= i < |docs| ==> !(CancelPendingOf(docs, userId)[i].user == userId && CancelPendingOf(docs, userId)[i].status == Pending)
    ensures forall i :: 0 <= i < |docs| && (docs[i].user != userId || docs[i].status != Pending) ==> CancelPendingOf(docs, userId)[i] == docs[i]
    ensures forall i :: 0 <= i < |docs| ==> CancelPendingOf(docs, userId)[i].(status := docs[i].status) == docs[i]
    ensures CancelPendingOf(CancelPendingOf(docs, userId), userId) == CancelPendingOf(docs, userId)
  {
  }

  /** Cancelling frees slots only: the bulk cancel keeps every unit free of double bookings. */
  lemma CancelPendingKeepsNoDoubleBooking(docs: seq<Booking>, userId: string)
    requires NoDoubleBooking(docs)
    ensures NoDoubleBooking(CancelPendingOf(docs, userId))
  {
    var r := CancelPendingOf(docs, userId);
    forall i | 0 <= i < |r| && Active(r[i])
      ensures WellTimed(r[i])
    {
      assert r[i] == docs[i];
    }
    forall i, j | 0 <= i < j < |r| && Active(r[i]) && Active(r[j]) && SameUnitAndDay(r[i], r[j])
      ensures !Overlap(r[i], r[j])
    {
      assert r[i] == docs[i] && r[j] == docs[j];
    }
  }

  predicate NewestFirst(s: seq<Booking>)
  {
    forall i, j :: 0 <= i < j < |s| ==> s[i].createdAt >= s[j].createdAt
  }

  /** Puts `b` into a newest-first list after every booking at least as new. */
  function InsertNewestFirst(b: Booking, s: seq<Booking>): (r: seq<Booking>)
    requires NewestFirst(s)
    ensures |r| == |s| + 1
    ensures forall k :: 0 <= k < |r| ==> r[k] == b || r[k] in s
    ensures NewestFirst(r)
    ensures multiset(r) == multiset(s) + multiset{b}
  {
    if s == [] then [b]
    else if s[0].createdAt >= b.createdAt then
      var rest := InsertNewestFirst(b, s[1..]);
      assert s == [s[0]] + s[1..];
      assert forall k :: 0 <= k < |rest| ==> s[0].createdAt >= rest[k].createdAt by {
        forall k | 0 <= k < |rest|
          ensures s[0].createdAt >= rest[k].createdAt
        {
          if rest[k] != b {
            var j :| 0 <= j < |s[1..]| && s[1..][j] == rest[k];
            assert s[j + 1] == rest[k];
          }
        }
      }
      [s[0]] + rest
    else
      [b] + s
  }

  /** `.sort('-createdAt')`: newest first, the same bookings. */
  function SortNewestFirst(s: seq<Booking>): (r: seq<Booking>)
    ensures NewestFirst(r)
    ensures multiset(r) == multiset(s)
  {
    if s == [] then []
    else
      assert s == [s[0]] + s[1..];
      InsertNewestFirst(s[0], SortNewestFirst(s[1..]))
  }

  /** `getUserBookings` of the profile routes: the requester's bookings, newest first. */
  function BookingHistory(docs: seq<Booking>, userId: string): (r: seq<Booking>)
    ensures NewestFirst(r)
    ensures forall k :: 0 <= k < |r| ==> r[k].user == userId && r[k] in docs
    ensures forall i :: 0 <= i < |docs| && docs[i].user == userId ==> docs[i] in r
    ensures multiset(r) == multiset(UserBookings(docs, userId))
  {
    var mine := UserBookings(docs, userId);
    var r := SortNewestFirst(mine);
    assert forall k :: 0 <= k < |r| ==> r[k] in multiset(mine);
    assert forall i :: 0 <= i < |docs| && docs[i].user == userId ==> docs[i] in multiset(r);
    r
  }

  // ================================================================ the stored users

  datatype PasswordError = WrongPassword | UserGone

  /** The users collection, as far as these endpoints change it. */
  class UserCollection {
    var docs: seq<User>

    constructor ()
      ensures docs == []
    {
      docs := [];
    }

    function IndexOf(id: string): (r: Option<nat>)
      reads this
      ensures r.Some? ==> r.value < |docs| && docs[r.value].id == id
      ensures r.None? <==> forall j :: 0 <= j < |docs| ==> docs[j].id != id
    {
      Sequences.FindIndex(docs, (u: User) => u.id == id)
    }

    /** `updateUserProfile`: the whitelisted fields of the requester's record; `None` when there is no such user. */
    method UpdateProfile(id: string, body: ProfileBody) returns (r: Option<User>)
      modifies this
      ensures var k := old(IndexOf(id));
        && (k.None? ==> r.None? && docs == old(docs))
        && (k.Some? ==> r == Some(ApplyProfile(old(docs)[k.value], body)) && docs == old(docs)[k.value := r.value])
    {
      var k := IndexOf(id);
      if k.None? {
        return None;
      }
      var u := ApplyProfile(docs[k.value], body);
      docs := docs[k.value := u];
      return Some(u);
    }

    /** `updatePassword`: the new password is stored only when `matchPassword` accepts the current one. */
    method UpdatePassword(id: string, currentPassword: string, newPassword: string, matchPassword: (User, string) -> bool)
      returns (r: Result<User, PasswordError>)
      modifies this
      ensures var k := old(IndexOf(id));
        && (k.None? ==> r == Err(UserGone) && docs == old(docs))
        && (k.Some? && !matchPassword(old(docs)[k.value], currentPassword) ==> r == Err(WrongPassword) && docs == old(docs))
        && (k.Some? && matchPassword(old(docs)[k.value], currentPassword) ==>
              r == Ok(old(docs)[k.value].(password := newPassword)) && docs == old(docs)[k.value := r.value])
    {
      var k := IndexOf(id);
      if k.None? {
        return Err(UserGone);
      }
      var u := docs[k.value];
      if !matchPassword(u, currentPassword) {
        return Err(WrongPassword);
      }
      u := u.(password := newPassword);
      docs := docs[k.value := u];
      return Ok(u);
    }

    /**
     * `uploadProfilePicture`: the checks, then the move (`moved` is whether `file.mv` succeeded),
     * then the stored photo name.
     */
    method UploadPicture(id: string, file: Option<UploadedFile>, maxUpload: int, moved: bool)
      returns (r: Result<string, UploadError>)
      modifies this
      ensures var c := CheckUpload(file, maxUpload, id);
              var k := old(IndexOf(id));
        && (c.Err? ==> r == c && docs == old(docs))
        && (c.Ok? && !moved ==> r == Err(MoveFailed) && docs == old(docs))
        && (c.Ok? && moved && k.None? ==> r == c && docs == old(docs))
        && (c.Ok? && moved && k.Some? ==> r == c && docs == old(docs)[k.value := old(docs)[k.value].(photo := c.value)])
    {
      r := CheckUpload(file, maxUpload, id);
      if r.Err? {
        return;
      }
      if !moved {
        return Err(MoveFailed);
      }
      var k := IndexOf(id);
      if k.Some? {
        docs := docs[k.value := docs[k.value].(photo := r.value)];
      }
    }

    /** The user's record removed, every other one kept in order. */
    method Remove(k: nat)
      requires k < |docs|
      modifies this
      ensures docs == old(docs)[..k] + old(docs)[k + 1..]
    {
      docs := docs[..k] + docs[k + 1..];
    }
  }

  /**
   * `deleteUserAccount`: the user's pending bookings are cancelled first, then the user is
   * removed; with no such user the cancel has already happened and the removal fails.
   */
  method DeleteUserAccount(users: UserCollection, bookings: BookingCollection, id: string) returns (removed: bool)
    modifies users, bookings
    ensures bookings.docs == CancelPendingOf(old(bookings.docs), id)
    ensures var k := old(users.IndexOf(id));
      && (k.None? ==> !removed && users.docs == old(users.docs))
      && (k.Some? ==> removed && users.docs == old(users.docs)[..k.value] + old(users.docs)[k.value + 1..])
    ensures NoDoubleBooking(old(bookings.docs)) ==> NoDoubleBooking(bookings.docs)
  {
    var k := users.IndexOf(id);
    if NoDoubleBooking(bookings.docs) {
      CancelPendingKeepsNoDoubleBooking(bookings.docs, id);
    }
    bookings.docs := CancelPendingOf(bookings.docs, id);
    if k.None? {
      return false;
    }
    users.Remove(k.value);
    return true;
  }
}
