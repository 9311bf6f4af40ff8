/**
 * The user store behind the auth service (internal/repository/user_repository.go),
 * as an abstract table of rows rather than SQL.  The database's unique
 * constraints on `id`, `email` and `username` become the table invariant; a
 * failing driver call is an explicit `fault` argument.
 */
module UserRepository {
  import opened Wrappers
  import opened Models

  datatype RepoError =
    | UserNotFound
    | EmailAlreadyExists
    | UsernameAlreadyExists
    | DbError(message: string)

  /** `err.Error()` for the repository's errors. */
  function RepoErrorText(e: RepoError): string
  {
    match e
    case UserNotFound => "user not found"
    case EmailAlreadyExists => "email already exists"
    case UsernameAlreadyExists => "username already exists"
    case DbError(m) => m
  }

  /** The column a `SELECT * FROM users WHERE <column> = $1` filters on. */
  datatype Column = ById | ByEmail | ByUsername | ByGitHubId | ByGoogleId

  predicate Matches(u: User, col: Column, v: string)
  {
    match col
    case ById => u.id == v
    case ByEmail => u.email == v
    case ByUsername => u.username == v
    case ByGitHubId => u.gitHubId == Some(v)
    case ByGoogleId => u.googleId == Some(v)
  }

  /** The position of the first row matching, if any. */
  function FindFirst(rows: seq<User>, col: Column, v: string): (r: Option<nat>)
    ensures r.Some? ==> r.value < |rows| && Matches(rows[r.value], col, v)
    ensures r.Some? ==> forall j :: 0 <= j < r.value ==> !Matches(rows[j], col, v)
    ensures r.None? <==> forall j :: 0 <= j < |rows| ==> !Matches(rows[j], col, v)
  {
    if |rows| == 0 then None
    else if Matches(rows[0], col, v) then Some(0)
    else
      match FindFirst(rows[1..], col, v)
      case None => None
      case Some(k) => Some(k + 1)
  }

  /**
   * One `Get...` query: a driver failure is passed through, no row is
   * `ErrUserNotFound`, otherwise the (first) matching row.
   */
  function Select(rows: seq<User>, col: Column, v: string, fault: Option<string>): (r: Result<User, RepoError>)
    ensures fault.Some? ==> r == Failure(DbError(fault.value))
    ensures fault.None? && r.Success? ==> r.value in rows && Matches(r.value, col, v)
    ensures fault.None? ==> (r == Failure(UserNotFound) <==> forall u :: u in rows ==> !Matches(u, col, v))
    ensures r.Failure? ==> r.error == UserNotFound || r.error.DbError?
  {
    if fault.Some? then Failure(DbError(fault.value))
    else
      match FindFirst(rows, col, v)
      case None => Failure(UserNotFound)
      case Some(i) => Success(rows[i])
  }

  /** The database's unique constraints: no two rows share an id, an email or a username. */
  predicate Unique(rows: seq<User>)
  {
    forall i, j :: 0 <= i < j < |rows| ==>
      rows[i].id != rows[j].id && rows[i].email != rows[j].email && rows[i].username != rows[j].username
  }

  /** Under the unique constraints a row found by id, email or username is the only one. */
  lemma SelectUnique(rows: seq<User>, col: Column, v: string, u: User)
    requires Unique(rows) && col in {ById, ByEmail, ByUsername}
    requires u in rows && Matches(u, col, v)
    ensures Select(rows, col, v, None) == Success(u)
  {
    var i :| 0 <= i < |rows| && rows[i] == u;
    var k := FindFirst(rows, col, v).value;
    UniqueMatch(rows, col, v, i, k);
  }

  /** Two rows matching the same id, email or username are the same row. */
  lemma UniqueMatch(rows: seq<User>, col: Column, v: string, a: nat, b: nat)
    requires Unique(rows) && col in {ById, ByEmail, ByUsername}
    requires a < |rows| && b < |rows| && Matches(rows[a], col, v) && Matches(rows[b], col, v)
    ensures a == b
  {
  }

  /** `Create` fills in the generated id and both timestamps before inserting. */
  function Stamped(u: User, newId: string, now: int): (s: User)
    ensures s.id == newId && s.createdAt == now && s.updatedAt == now
    ensures s.(id := u.id, createdAt := u.createdAt, updatedAt := u.updatedAt) == u
  {
    u.(id := newId, createdAt := now, updatedAt := now)
  }

  /**
   * The error the INSERT reports, if any: a driver fault as such, then the
   * email constraint, then the username constraint (both mapped to the
   * repository's own errors), then the primary key.  The repository passes
   * any other driver error through unchanged; the text given here for a
   * primary-key clash stands for that error and is PostgreSQL's usual
   * wording, not something the repository writes.
   */
  function InsertError(rows: seq<User>, s: User, fault: Option<string>): (e: Option<RepoError>)
    ensures fault.Some? ==> e == Some(DbError(fault.value))
    ensures e.None? <==> fault.None? && forall u :: u in rows ==>
      u.email != s.email && u.username != s.username && u.id != s.id
    ensures e == Some(EmailAlreadyExists) <==> fault.None? && exists u :: u in rows && u.email == s.email
  {
    if fault.Some? then Some(DbError(fault.value))
    else if exists u :: u in rows && u.email == s.email then Some(EmailAlreadyExists)
    else if exists u :: u in rows && u.username == s.username then Some(UsernameAlreadyExists)
    else if exists u :: u in rows && u.id == s.id then
      Some(DbError("pq: duplicate key value violates unique constraint \"users_pkey\""))
    else None
  }

  /** An insert that reports no error keeps the unique constraints. */
  lemma InsertKeepsUnique(rows: seq<User>, s: User)
    requires InsertError(rows, s, None).None?
    ensures Unique(rows) ==> Unique(rows + [s])
  {
    if Unique(rows) {
      var t := rows + [s];
      forall i, j | 0 <= i < j < |t|
        ensures t[i].id != t[j].id && t[i].email != t[j].email && t[i].username != t[j].username
      {
        if j == |rows| {
          assert t[i] in rows;
        }
      }
    }
  }

  class UserTable {
    var rows: seq<User>

    ghost predicate Valid()
      reads this
    {
      Unique(rows)
    }

    constructor ()
      ensures rows == [] && Valid()
    {
      rows := [];
    }

    /** GetByID / GetByEmail / GetByUsername / GetByGitHubID / GetByGoogleID. */
    method Get(col: Column, v: string, fault: Option<string>) returns (r: Result<User, RepoError>)
      ensures r == Select(rows, col, v, fault)
    {
      if fault.Some? {
        return Failure(DbError(fault.value));
      }
      var i := 0;
      while i < |rows|
        invariant 0 <= i <= |rows|
        invariant forall j :: 0 <= j < i ==> !Matches(rows[j], col, v)
      {
        if Matches(rows[i], col, v) {
          assert FindFirst(rows, col, v) == Some(i);
          return Success(rows[i]);
        }
        i := i + 1;
      }
      return Failure(UserNotFound);
    }

    /**
     * `Create`: the row gets `newId` and `now` as its id and timestamps (which
     * the caller's record also receives, whether or not the insert succeeds),
     * then is appended unless the insert reports an error.
     */
    method Create(u: User, newId: string, now: int, fault: Option<string>)
      returns (stamped: User, err: Option<RepoError>)
      requires Valid()
      modifies this
      ensures Valid()
      ensures stamped == Stamped(u, newId, now)
      ensures err == InsertError(old(rows), stamped, fault)
      ensures err.None? ==> rows == old(rows) + [stamped]
      ensures err.Some? ==> rows == old(rows)
    {
      stamped := Stamped(u, newId, now);
      err := InsertError(rows, stamped, fault);
      if err.None? {
        InsertKeepsUnique(rows, stamped);
        rows := rows + [stamped];
      }
    }
  }

  /** A created user is found again by its id and by its email. */
  lemma CreateThenGet(rows: seq<User>, s: User)
    requires Unique(rows) && InsertError(rows, s, None).None?
    ensures Select(rows + [s], ById, s.id, None) == Success(s)
    ensures Select(rows + [s], ByEmail, s.email, None) == Success(s)
  {
    InsertKeepsUnique(rows, s);
    assert s in rows + [s];
    SelectUnique(rows + [s], ById, s.id, s);
    SelectUnique(rows + [s], ByEmail, s.email, s);
  }
}
