/** The user table's data-access functions (dao/mysql/user.go): the existence check,
    sign-up insert, login check, lookup by id and the batch lookup, and the password
    hash they store and compare. MD5 is a parameter; its digest is 16 bytes. */
module UserDao {
  import opened Wrappers
  import opened Models
  import opened MySqlStore
  import opened Batch

  const Secret := "xp"

  type Digest = s: seq<byte> | |s| == 16 witness [0, 0, 0, 0, 0, 0, 0, 0, 0, 0, 0, 0, 0, 0, 0, 0]
  type Nibble = x: int | 0 <= x < 16

  // ---------- bytes and hex ----------

  /** The UTF-8 encoding of one character, as Go's []byte(string) produces it. */
  function Utf8Char(c: char): (b: seq<byte>)
    ensures 1 <= |b| <= 4
  {
    var n := c as int;
    if n < 0x80 then [n]
    else if n < 0x800 then [0xC0 + n / 64, 0x80 + n % 64]
    else if n < 0x10000 then [0xE0 + n / 4096, 0x80 + (n / 64) % 64, 0x80 + n % 64]
    else [0xF0 + (n / 262144) % 8, 0x80 + (n / 4096) % 64, 0x80 + (n / 64) % 64, 0x80 + n % 64]
  }

  function Utf8(s: string): (b: seq<byte>)
    ensures |s| <= |b| <= 4 * |s|
  {
    if s == [] then [] else Utf8Char(s[0]) + Utf8(s[1..])
  }

  function HexDigit(k: Nibble): char {
    if k < 10 then (48 + k) as char else (87 + k) as char
  }

  function HexValue(c: char): Option<Nibble> {
    if '0' <= c <= '9' then Some(c as int - 48)
    else if 'a' <= c <= 'f' then Some(c as int - 87)
    else None
  }

  /** hex.EncodeToString: two lower-case digits per byte. */
  function Hex(bs: seq<byte>): (h: string)
    ensures |h| == 2 * |bs|
  {
    if bs == [] then "" else [HexDigit(bs[0] / 16), HexDigit(bs[0] % 16)] + Hex(bs[1..])
  }

  /** hex.DecodeString: None on an odd length or a character that is not a hex digit. */
  function UnHex(h: string): Option<seq<byte>>
    decreases |h|
  {
    if h == [] then Some([])
    else if |h| == 1 then None
    else
      match (HexValue(h[0]), HexValue(h[1]), UnHex(h[2..]))
      case (Some(hi), Some(lo), Some(rest)) =>
        var b: byte := (hi as int) * 16 + (lo as int);
        Some([b] + rest)
      case _ => None
  }

  /** Decoding the hex of some bytes gives the bytes back. */
  lemma {:induction false} HexRoundTrip(bs: seq<byte>)
    ensures UnHex(Hex(bs)) == Some(bs)
  {
    if bs != [] {
      var b := bs[0];
      var h := Hex(bs);
      assert h[2..] == Hex(bs[1..]);
      HexRoundTrip(bs[1..]);
      assert HexValue(h[0]) == Some(b / 16) && HexValue(h[1]) == Some(b % 16);
      assert [b] + bs[1..] == bs;
    }
  }

  lemma {:induction false} HexConcat(a: seq<byte>, b: seq<byte>)
    ensures Hex(a + b) == Hex(a) + Hex(b)
  {
    if a == [] {
      assert a + b == b;
    } else {
      assert (a + b)[0] == a[0] && (a + b)[1..] == a[1..] + b;
      HexConcat(a[1..], b);
    }
  }

  // ---------- the password hash ----------

  /** encryptPassword as written: the hash is fed the secret, and Sum then appends the
      digest to the password's own bytes, so the stored text is the hex of the password
      followed by the hex of the secret's digest. */
  function EncryptPasswordAsWritten(password: string, md5: seq<byte> -> Digest): string {
    Hex(Utf8(password) + md5(Utf8(Secret)))
  }

  /** As written, the stored value grows with the password and begins with the password
      itself in hex: anyone who reads the column recovers every password. */
  lemma AsWrittenHashRevealsPassword(password: string, md5: seq<byte> -> Digest)
    ensures |EncryptPasswordAsWritten(password, md5)| == 2 * |Utf8(password)| + 32
    ensures UnHex(EncryptPasswordAsWritten(password, md5)[..2 * |Utf8(password)|]) == Some(Utf8(password))
  {
    HexConcat(Utf8(password), md5(Utf8(Secret)));
    assert EncryptPasswordAsWritten(password, md5)[..2 * |Utf8(password)|] == Hex(Utf8(password));
    HexRoundTrip(Utf8(password));
  }

  /** encryptPassword as evidently intended: the hex of the digest of the secret followed
      by the password. */
  function EncryptPassword(password: string, md5: seq<byte> -> Digest): (h: string)
    ensures |h| == 32
    ensures UnHex(h) == Some(md5(Utf8(Secret) + Utf8(password)))
  {
    HexRoundTrip(md5(Utf8(Secret) + Utf8(password)));
    Hex(md5(Utf8(Secret) + Utf8(password)))
  }

  // ---------- single-row operations ----------

  /** CheckUserExist: an error when the server fails, ErrorUserExist when a row already has
      the name, nothing otherwise. */
  function CheckUserExist(db: Database, username: string): (err: Option<Error>)
    reads db
    ensures !db.online ==> err == Some(Backend)
    ensures db.Valid() && db.online ==>
      (err == Some(UserExist) <==> exists id :: id in db.users && db.users[id].username == username)
    ensures db.online ==> err == None || err == Some(UserExist)
  {
    if !db.online then Some(Backend)
    else
      NameIndex(db, username);
      if username in db.usernames then Some(UserExist) else None
  }

  /** The name index holds exactly the names some row has. */
  lemma NameIndex(db: Database, username: string)
    ensures db.Valid() ==>
      (username in db.usernames <==> exists id :: id in db.users && db.users[id].username == username)
  {
    if db.Valid() && username in db.usernames {
      var id := db.usernames[username];
      assert id in db.users && db.users[id].username == username;
    }
  }

  /** The password transformation the source applies on insert and on login:
      encryptPassword as written. */
  function SourceHash(md5: seq<byte> -> Digest): string -> string {
    password => EncryptPasswordAsWritten(password, md5)
  }

  /** InsertUser: the caller's record gets `hash` of its password in place of the password
      (whether or not the insert succeeds), and the row is added unless it repeats a user
      id or a name. The source's `hash` is SourceHash. */
  method InsertUser(db: Database, u: User, hash: string -> string) returns (stored: User, err: Option<Error>)
    requires db.Valid()
    modifies db
    ensures db.Valid()
    ensures stored == u.(password := hash(u.password))
    ensures db.online == old(db.online) && db.posts == old(db.posts) && db.communities == old(db.communities)
    ensures !db.online ==> err == Some(Backend)
    ensures db.online && (u.userId in old(db.users) || u.username in old(db.usernames)) ==> err == Some(DuplicateKey)
    ensures err == None <==> db.online && u.userId !in old(db.users) && u.username !in old(db.usernames)
    ensures err == None ==> db.users == old(db.users)[u.userId := stored] && db.usernames == old(db.usernames)[u.username := u.userId]
    ensures err != None ==> db.users == old(db.users) && db.usernames == old(db.usernames)
  {
    stored := u.(password := hash(u.password));
    if !db.online {
      return stored, Some(Backend);
    }
    if u.userId in db.users || u.username in db.usernames {
      return stored, Some(DuplicateKey);
    }
    db.users := db.users[u.userId := stored];
    db.usernames := db.usernames[u.username := u.userId];
    err := None;
  }

  /** Login: the row with the name, provided `hash` of the given password matches the
      stored one. The source's `hash` is SourceHash. */
  function Login(db: Database, username: string, password: string, hash: string -> string): (r: Result<User>)
    requires db.Valid()
    reads db
    ensures !db.online ==> r == Err(Backend)
    ensures db.online && username !in db.usernames ==> r == Err(UserNotExist)
    ensures db.online && username in db.usernames ==>
      (r.Ok? <==> hash(password) == db.users[db.usernames[username]].password)
    ensures db.online && username in db.usernames && r.Err? ==> r.error == InvalidPassword
    ensures r.Ok? ==> r.value.username == username && r.value.userId in db.users && db.users[r.value.userId] == r.value
  {
    if !db.online then Err(Backend)
    else if username !in db.usernames then Err(UserNotExist)
    else
      var id := db.usernames[username];
      var row := db.users[id];
      assert row.userId == id && row.username == username;
      if hash(password) != row.password then Err(InvalidPassword) else Ok(row)
  }

  /** A user inserted with some password logs in with that password, whatever the hash. */
  lemma LoginAfterInsert(db: Database, u: User, password: string, hash: string -> string)
    requires db.Valid() && db.online
    requires u.userId in db.users && db.users[u.userId] == u.(password := hash(password))
    ensures Login(db, u.username, password, hash) == Ok(db.users[u.userId])
  {
  }

  /** The source's round trip: a user stored with encryptPassword as written logs in with
      the same password, and the stored column hands that password to whoever reads it. */
  lemma SourceLoginAfterInsert(db: Database, u: User, password: string, md5: seq<byte> -> Digest)
    requires db.Valid() && db.online
    requires u.userId in db.users && db.users[u.userId] == u.(password := SourceHash(md5)(password))
    ensures Login(db, u.username, password, SourceHash(md5)) == Ok(db.users[u.userId])
    ensures UnHex(db.users[u.userId].password[..2 * |Utf8(password)|]) == Some(Utf8(password))
  {
    LoginAfterInsert(db, u, password, SourceHash(md5));
    AsWrittenHashRevealsPassword(password, md5);
  }

  /** Over the corrected hash, the stored column has the same length for every password
      and holds the digest, not the password. */
  lemma CorrectedLoginAfterInsert(db: Database, u: User, password: string, md5: seq<byte> -> Digest)
    requires db.Valid() && db.online
    requires u.userId in db.users && db.users[u.userId] == u.(password := EncryptPassword(password, md5))
    ensures Login(db, u.username, password, p => EncryptPassword(p, md5)) == Ok(db.users[u.userId])
    ensures |db.users[u.userId].password| == 32
    ensures UnHex(db.users[u.userId].password) == Some(md5(Utf8(Secret) + Utf8(password)))
  {
    LoginAfterInsert(db, u, password, p => EncryptPassword(p, md5));
  }

  /** The select leaves the password column out. */
  function NoPassword(u: User): User {
    u.(password := "")
  }

  /** GetUserByID: the row without its password; sql.ErrNoRows when there is none. */
  function GetUserByID(db: Database, userID: int): (r: Result<User>)
    reads db
    ensures !db.online ==> r == Err(Backend)
    ensures db.online ==> (r.Ok? <==> userID in db.users)
    ensures db.online && userID !in db.users ==> r == Err(NoRows)
    ensures r.Ok? ==> r.value.password == "" && r.value.username == db.users[userID].username
  {
    if !db.online then Err(Backend)
    else if userID !in db.users then Err(NoRows)
    else Ok(NoPassword(db.users[userID]))
  }

  /** BatchGetUsersByIDs: the users among the ids, keyed by id, without passwords. */
  method BatchGetUsersByIDs(db: Database, userIDs: seq<int>) returns (r: Result<map<int, User>>)
    requires db.Valid()
    ensures userIDs == [] ==> r == Ok(map[])
    ensures |userIDs| > MaxBatchSize ==> r == Err(TooManyIDs(|userIDs|, MaxBatchSize))
    ensures 0 < |userIDs| <= MaxBatchSize && !db.online ==> r == Err(Wrapped("batch get users failed", Backend))
    ensures 0 < |userIDs| <= MaxBatchSize && db.online ==> r == Ok(Found(db.users, userIDs, NoPassword))
  {
    r := BatchGetByIDs(db.online, db.users, (u: User) => u.userId, NoPassword, userIDs, "batch get users failed");
  }

  /** The batch answer for each id is the single lookup's answer: present exactly when
      GetUserByID finds the user, and then equal to it. */
  lemma BatchAgreesWithSingle(db: Database, userIDs: seq<int>, found: map<int, User>)
    requires db.online && found == Found(db.users, userIDs, NoPassword)
    ensures forall id :: id in userIDs ==> (id in found <==> GetUserByID(db, id).Ok?)
    ensures forall id :: id in found ==> found[id] == GetUserByID(db, id).value
  {
  }
}
