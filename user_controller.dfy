/** The server-side user endpoints: registration, login, the own-profile read
    and update, and the administrator's update and delete. The store maps a user
    id to the user record. Password hashing is not modelled: a stored password is
    compared with an entered one by a caller-supplied `matches` predicate. */
module UserController {
  import opened Common

  /** A saved shipping address; its fields are not inspected. */
  type Address = map<string, string>

  datatype User = User(name: string, email: string, password: string, isAdmin: bool, addresses: seq<Address>)

  datatype UserStatus = Ok | UserExists | InvalidCredentials | UserNotFound | CannotDeleteAdmin

  /** `User.findOne({ email })` finds a user. */
  predicate EmailTaken(users: map<UserId, User>, email: string)
  {
    exists id :: id in users && users[id].email == email
  }

  /** No two users share an email address. */
  predicate UniqueEmails(users: map<UserId, User>)
  {
    forall a, b :: a in users && b in users && a != b ==> users[a].email != users[b].email
  }

  /** A registered user: not an administrator and without saved addresses. */
  function NewUser(name: string, email: string, password: string): (u: User)
    ensures u.name == name && u.email == email && u.password == password
    ensures !u.isAdmin && u.addresses == []
  {
    User(name, email, password, false, [])
  }

  /** `updateUserProfile`: name and email fall back to the stored ones when the
      request's are empty or absent; addresses are replaced whenever given (an
      empty array is truthy), the password only when non-empty. */
  function ProfileUpdated(u: User, name: Option<string>, email: Option<string>, addresses: Option<seq<Address>>,
                          password: Option<string>): (r: User)
    ensures r.name == OrElse(name, u.name) && r.email == OrElse(email, u.email)
    ensures addresses.Some? ==> r.addresses == addresses.value
    ensures addresses.None? ==> r.addresses == u.addresses
    ensures Truthy(password) ==> r.password == password.value
    ensures !Truthy(password) ==> r.password == u.password
    ensures r.isAdmin == u.isAdmin
  {
    var named := u.(name := OrElse(name, u.name), email := OrElse(email, u.email));
    var addressed := if addresses.Some? then named.(addresses := addresses.value) else named;
    if Truthy(password) then addressed.(password := password.value) else addressed
  }

  /** `updateUser`: as the profile update for name and email; the administrator
      flag changes only when the request defines it. Addresses and password stay. */
  function AdminUpdated(u: User, name: Option<string>, email: Option<string>, isAdmin: Option<bool>): (r: User)
    ensures r.name == OrElse(name, u.name) && r.email == OrElse(email, u.email)
    ensures isAdmin.Some? ==> r.isAdmin == isAdmin.value
    ensures isAdmin.None? ==> r.isAdmin == u.isAdmin
    ensures r.password == u.password && r.addresses == u.addresses
  {
    u.(name := OrElse(name, u.name), email := OrElse(email, u.email),
       isAdmin := if isAdmin.Some? then isAdmin.value else u.isAdmin)
  }

  /** Registration refuses a taken email, so it keeps emails unique. */
  lemma RegisterKeepsEmailsUnique(users: map<UserId, User>, id: UserId, name: string, email: string, password: string)
    requires UniqueEmails(users) && id !in users && !EmailTaken(users, email)
    ensures UniqueEmails(users[id := NewUser(name, email, password)])
  {
    var after := users[id := NewUser(name, email, password)];
    forall a, b | a in after && b in after && a != b ensures after[a].email != after[b].email {
      if a == id {
        assert users[b].email != email;
      } else if b == id {
        assert users[a].email != email;
      }
    }
  }

  /** The profile update does not look the email up, so it keeps emails unique
      exactly when the request's email is falsy or belongs to no other user. */
  lemma ProfileUpdateKeepsEmailsUnique(users: map<UserId, User>, id: UserId, name: Option<string>, email: Option<string>,
                                       addresses: Option<seq<Address>>, password: Option<string>)
    requires UniqueEmails(users) && id in users
    ensures UniqueEmails(users[id := ProfileUpdated(users[id], name, email, addresses, password)]) <==>
      !Truthy(email) || forall other :: other in users && other != id ==> users[other].email != email.value
  {
    var after := users[id := ProfileUpdated(users[id], name, email, addresses, password)];
    if !Truthy(email) || forall other :: other in users && other != id ==> users[other].email != email.value {
      forall a, b | a in after && b in after && a != b ensures after[a].email != after[b].email {
        if a == id {
          assert after[b] == users[b];
        } else if b == id {
          assert after[a] == users[a];
        }
      }
    } else {
      var other :| other in users && other != id && users[other].email == email.value;
      assert after[other].email == after[id].email;
    }
  }

  class UserTable {
    var users: map<UserId, User>

    constructor ()
      ensures users == map[]
    {
      users := map[];
    }

    /** `registerUser`: refuses an email that is already registered; otherwise
        stores a new user under the store's fresh id. */
    method RegisterUser(id: UserId, name: string, email: string, password: string) returns (status: UserStatus)
      requires id !in users
      modifies this
      ensures EmailTaken(old(users), email) ==> status == UserExists && users == old(users)
      ensures !EmailTaken(old(users), email) ==> status == Ok && users == old(users)[id := NewUser(name, email, password)]
      ensures UniqueEmails(old(users)) ==> UniqueEmails(users)
    {
      if exists other :: other in users && users[other].email == email {
        return UserExists;
      }
      if UniqueEmails(users) {
        RegisterKeepsEmailsUnique(users, id, name, email, password);
      }
      users := users[id := NewUser(name, email, password)];
      status := Ok;
    }

    /** `authUser`: the user found by email, if its stored password matches the
        entered one. When emails are unique, login succeeds exactly when some user
        has the email and a matching password. */
    method AuthUser(email: string, password: string, matches: (string, string) -> bool)
      returns (status: UserStatus, user: Option<UserId>)
      ensures status == Ok ==> user.Some? && user.value in users && users[user.value].email == email &&
                               matches(password, users[user.value].password)
      ensures status != Ok ==> status == InvalidCredentials && user == None
      ensures !EmailTaken(users, email) ==> status == InvalidCredentials
      ensures UniqueEmails(users) ==>
        (status == Ok <==> exists id :: id in users && users[id].email == email && matches(password, users[id].password))
    {
      if !exists id :: id in users && users[id].email == email {
        return InvalidCredentials, None;
      }
      var found :| found in users && users[found].email == email;
      if !matches(password, users[found].password) {
        return InvalidCredentials, None;
      }
      status, user := Ok, Some(found);
    }

    /** `getUserProfile`. */
    method GetUserProfile(id: UserId) returns (status: UserStatus, profile: Option<User>)
      ensures id in users ==> status == Ok && profile == Some(users[id])
      ensures id !in users ==> status == UserNotFound && profile == None
    {
      if id !in users {
        return UserNotFound, None;
      }
      status, profile := Ok, Some(users[id]);
    }

    /** `updateUserProfile`. */
    method UpdateUserProfile(id: UserId, name: Option<string>, email: Option<string>, addresses: Option<seq<Address>>,
                             password: Option<string>) returns (status: UserStatus)
      modifies this
      ensures id !in old(users) ==> status == UserNotFound && users == old(users)
      ensures id in old(users) ==>
        status == Ok && users == old(users)[id := ProfileUpdated(old(users)[id], name, email, addresses, password)]
    {
      if id !in users {
        return UserNotFound;
      }
      var u := users[id];
      u := u.(name := OrElse(name, u.name));
      u := u.(email := OrElse(email, u.email));
      if addresses.Some? {
        u := u.(addresses := addresses.value);
      }
      if Truthy(password) {
        u := u.(password := password.value);
      }
      users := users[id := u];
      status := Ok;
    }

    /** `updateUser`. */
    method UpdateUser(id: UserId, name: Option<string>, email: Option<string>, isAdmin: Option<bool>)
      returns (status: UserStatus)
      modifies this
      ensures id !in old(users) ==> status == UserNotFound && users == old(users)
      ensures id in old(users) ==>
        status == Ok && users == old(users)[id := AdminUpdated(old(users)[id], name, email, isAdmin)]
    {
      if id !in users {
        return UserNotFound;
      }
      var u := users[id];
      u := u.(name := OrElse(name, u.name));
      u := u.(email := OrElse(email, u.email));
      u := u.(isAdmin := if isAdmin.Some? then isAdmin.value else u.isAdmin);
      users := users[id := u];
      status := Ok;
    }

    /** `deleteUser`: administrators cannot be deleted. */
    method DeleteUser(id: UserId) returns (status: UserStatus)
      modifies this
      ensures id !in old(users) ==> status == UserNotFound && users == old(users)
      ensures id in old(users) && old(users)[id].isAdmin ==> status == CannotDeleteAdmin && users == old(users)
      ensures id in old(users) && !old(users)[id].isAdmin ==> status == Ok && users == old(users) - {id}
    {
      if id !in users {
        return UserNotFound;
      }
      if users[id].isAdmin {
        return CannotDeleteAdmin;
      }
      users := users - {id};
      status := Ok;
    }
  }
}
