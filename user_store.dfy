/**
 * The user collection behind the authentication controller. The database
 * keeps documents in insertion order and a lookup by username returns the
 * first document with that username.
 */
module UserStore {
  import opened Wrappers
  import PasswordHasher

  /** A persisted user document. */
  datatype UserRecord = UserRecord(id: string, username: string, passwordHash: string)

  /** The first document whose username is `username`, if any. */
  function Lookup(docs: seq<UserRecord>, username: string): (r: Option<UserRecord>)
    ensures r.Some? ==> r.value in docs && r.value.username == username
    ensures r.None? <==> forall i | 0 <= i < |docs| :: docs[i].username != username
  {
    if docs == [] then None
    else if docs[0].username == username then Some(docs[0])
    else Lookup(docs[1..], username)
  }

  /** No two documents share a username. */
  ghost predicate UniqueUsernames(docs: seq<UserRecord>)
  {
    forall i, j | 0 <= i < j < |docs| :: docs[i].username != docs[j].username
  }

  /** Every stored password field has the shape the hasher produces. */
  ghost predicate HashesWellFormed(docs: seq<UserRecord>)
  {
    forall i | 0 <= i < |docs| :: PasswordHasher.WellFormed(docs[i].passwordHash)
  }

  /**
   * Appending a document changes the lookup of its own username only when
   * that username was absent, and leaves every other username's lookup as
   * it was.
   */
  lemma {:induction false} LookupAppend(docs: seq<UserRecord>, u: UserRecord, name: string)
    ensures Lookup(docs + [u], name)
         == if Lookup(docs, name).Some? then Lookup(docs, name)
            else if u.username == name then Some(u)
            else None
  {
    if docs != [] {
      assert (docs + [u])[0] == docs[0];
      assert (docs + [u])[1..] == docs[1..] + [u];
      LookupAppend(docs[1..], u, name);
    }
  }

  /** With unique usernames, every document is what a lookup of its username finds. */
  lemma LookupFindsEach(docs: seq<UserRecord>, i: nat)
    requires UniqueUsernames(docs)
    requires i < |docs|
    ensures Lookup(docs, docs[i].username) == Some(docs[i])
  {
  }

  /** Appending a document whose username is absent keeps usernames unique. */
  lemma AppendFreshKeepsUnique(docs: seq<UserRecord>, u: UserRecord)
    requires UniqueUsernames(docs)
    requires Lookup(docs, u.username).None?
    ensures UniqueUsernames(docs + [u])
  {
  }

  /** The request object the controller receives and updates in place. */
  class User {
    var id: string
    var username: string
    var passwordHash: string

    constructor (id: string, username: string, passwordHash: string)
      ensures this.id == id && this.username == username && this.passwordHash == passwordHash
    {
      this.id := id;
      this.username := username;
      this.passwordHash := passwordHash;
    }

    /** The document the database stores for this object. */
    function Snapshot(): UserRecord
      reads this
    {
      UserRecord(id, username, passwordHash)
    }
  }

  /** The user collection, with its two operations. */
  class UserRepository {
    var documents: seq<UserRecord>

    constructor ()
      ensures documents == []
    {
      documents := [];
    }

    /** The user stored under `username`, if any. */
    function GetUserByUsername(username: string): (r: Option<UserRecord>)
      reads this
      ensures r.Some? ==> r.value in documents && r.value.username == username
      ensures r.None? <==> forall d | d in documents :: d.username != username
    {
      Lookup(documents, username)
    }

    /** Stores a copy of `user` as a new document. */
    method CreateUser(user: User)
      modifies this
      ensures documents == old(documents) + [user.Snapshot()]
    {
      documents := documents + [user.Snapshot()];
    }
  }
}
