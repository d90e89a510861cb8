/** The signed-in user of context/AuthContext.tsx: a demo login that looks
    the e-mail up among the mock users and keeps the chosen user in browser
    storage under `uni_user` so that a reload restores it. */
module AuthContext {
  import opened Wrappers
  import opened Seqs
  import opened Types
  import Constants

  /** `MOCK_USERS.find(u => u.email === email)`. Written over `FirstIndex`
      rather than `FindFirst` because `FindFirst`'s existential ensures,
      instantiated on the five literal users, makes `FindUserByEmailSpec`
      too costly to verify. */
  function FindUserByEmail(email: string): (r: Option<User>)
    ensures r.Some? ==> r.value in Constants.MockUsers() && r.value.email == Some(email)
    ensures r.None? <==> forall i :: 0 <= i < |Constants.MockUsers()| ==> Constants.MockUsers()[i].email != Some(email)
  {
    var users := Constants.MockUsers();
    match FirstIndex(users, (u: User) => u.email == Some(email))
    case None => None
    case Some(i) => Some(users[i])
  }

  /** Exactly the five demo addresses sign in, each as its own user; the
      two addresses the failure message suggests are the administrator and
      a student. */
  lemma FindUserByEmailSpec(email: string)
    ensures FindUserByEmail(email).Some? <==>
      email in {"admin@uni.edu", "smith@uni.edu", "jones@uni.edu", "john@uni.edu", "jane@uni.edu"}
    ensures FindUserByEmail("admin@uni.edu") == Some(Constants.MockUsers()[0])
    ensures FindUserByEmail("admin@uni.edu").value.role == Admin
    ensures FindUserByEmail("john@uni.edu") == Some(Constants.MockUsers()[3])
    ensures FindUserByEmail("john@uni.edu").value.role == Student
  {
    var users := Constants.MockUsers();
    if email !in {"admin@uni.edu", "smith@uni.edu", "jones@uni.edu", "john@uni.edu", "jane@uni.edu"} {
      assert forall i :: 0 <= i < |users| ==> users[i].email != Some(email);
    }
  }

  /** What browser storage holds under `uni_user`: nothing (a missing key
      or the empty string, both falsy), text that does not parse, or a
      parsed user. */
  datatype StoredUser = NoUser | Unparseable | Saved(u: User)

  const ParseFailure: string := "Unexpected token in JSON"

  class AuthProvider {
    /** The signed-in user, or nobody. */
    var user: Option<User>
    /** What browser storage holds under `uni_user`. */
    var storedUser: StoredUser

    /** The signed-in user is the stored one, and nobody is signed in when
        nothing is stored. */
    predicate Consistent()
      reads this
    {
      match storedUser
      case NoUser => user == None
      case Unparseable => false
      case Saved(u) => user == Some(u)
    }

    /** `isAuthenticated: !!user`. */
    predicate IsAuthenticated()
      reads this
    {
      user.Some?
    }

    /** The provider as first rendered: nobody signed in yet, storage as found. */
    constructor (stored: StoredUser)
      ensures user == None && storedUser == stored
      ensures !IsAuthenticated()
    {
      user := None;
      storedUser := stored;
    }

    /** The mount effect: a stored user becomes the signed-in user; stored
        text that does not parse makes the effect throw, leaving the
        signed-in user as it was. */
    method Restore() returns (r: Result<()>)
      modifies this
      ensures storedUser == old(storedUser)
      ensures r == if old(storedUser).Unparseable? then Err(ParseFailure) else Ok(())
      ensures user == if old(storedUser).Saved? then Some(old(storedUser).u) else old(user)
      ensures old(storedUser).Saved? ==> Consistent() && IsAuthenticated()
      ensures old(Consistent()) ==> Consistent()
    {
      match storedUser
      case NoUser =>
        r := Ok(());
      case Unparseable =>
        r := Err(ParseFailure);
      case Saved(u) =>
        user := Some(u);
        r := Ok(());
    }

    /** `login`: a known e-mail signs that user in and stores them; an
        unknown one changes nothing (the user only sees an alert). */
    method Login(email: string) returns (found: bool)
      modifies this
      ensures found <==> FindUserByEmail(email).Some?
      ensures found ==> user == FindUserByEmail(email) && storedUser == Saved(user.value)
      ensures found ==> IsAuthenticated() && Consistent()
      ensures !found ==> user == old(user) && storedUser == old(storedUser)
      ensures old(Consistent()) ==> Consistent()
    {
      var foundUser := FindUserByEmail(email);
      if foundUser.Some? {
        user := foundUser;
        storedUser := Saved(foundUser.value);
        found := true;
      } else {
        found := false;
      }
    }

    /** `logout`: nobody is signed in and the stored user is removed. */
    method Logout()
      modifies this
      ensures user == None && storedUser == NoUser
      ensures Consistent() && !IsAuthenticated()
    {
      user := None;
      storedUser := NoUser;
    }
  }
}
