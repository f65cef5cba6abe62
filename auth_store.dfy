/** The session store: who is signed in, whether a call is in flight, the
    last error, and the user record kept in local storage so the session
    survives a restart. What the gateway answered and whether each storage
    call succeeded are inputs. A storage failure inside `updateUser` or
    `toggleCreatorMode` is not caught there: the call rejects, which the
    methods report by returning false. */
module Auth {
  import opened Wrappers
  import opened Models

  const INVALID_CREDENTIALS := "Identifiants incorrects"
  const LOGIN_ERROR := "Erreur de connexion"
  const QUICK_LOGIN_ERROR := "Erreur de connexion rapide"
  const LOGOUT_ERROR := "Erreur de déconnexion"

  /** `{ ...user, isCreator: !user.isCreator }`. */
  function ToggledCreator(u: User): (r: User)
    ensures r.isCreator == !u.isCreator
    ensures r.(isCreator := u.isCreator) == u
  {
    u.(isCreator := !u.isCreator)
  }

  /** Toggling twice gives back the user, and toggling is the merge of a
      patch that supplies only the negated flag. */
  lemma ToggleCreatorInvolution(u: User)
    ensures ToggledCreator(ToggledCreator(u)) == u
    ensures ToggledCreator(u) == PatchUser(u, EMPTY_USER_PATCH.(isCreator := Some(!u.isCreator)))
  {
  }

  /** Two patches applied in turn, as one: the later one wins field by
      field. */
  function MergeUserPatches(p: UserPatch, q: UserPatch): (r: UserPatch)
    ensures q == EMPTY_USER_PATCH ==> r == p
    ensures p == EMPTY_USER_PATCH ==> r == q
  {
    UserPatch(if q.id.Some? then q.id else p.id,
              if q.name.Some? then q.name else p.name,
              if q.email.Some? then q.email else p.email,
              if q.phone.Some? then q.phone else p.phone,
              if q.isCreator.Some? then q.isCreator else p.isCreator,
              if q.avatar.Some? then q.avatar else p.avatar,
              if q.createdAt.Some? then q.createdAt else p.createdAt)
  }

  /** Two successive `updateUser` merges are one merge of the combined
      patch; in particular merging the same patch twice is merging it once. */
  lemma PatchUserTwice(u: User, p: UserPatch, q: UserPatch)
    ensures PatchUser(PatchUser(u, p), q) == PatchUser(u, MergeUserPatches(p, q))
    ensures PatchUser(PatchUser(u, p), p) == PatchUser(u, p)
  {
  }

  class AuthStore {
    var user: Option<User>
    var isAuthenticated: bool
    var isLoading: bool
    var error: Option<string>
    /** The user record under the session's storage key. */
    var storedUser: Option<User>

    /** A signed-in session always has a user, and a user is only kept for
        a signed-in session. */
    predicate Valid()
      reads this
    {
      isAuthenticated <==> user.Some?
    }

    /** The store before `checkAuth` has run: nobody signed in, loading. */
    constructor(stored: Option<User>)
      ensures user == None && !isAuthenticated && isLoading && error == None
      ensures storedUser == stored
      ensures Valid()
    {
      user, isAuthenticated, isLoading, error := None, false, true, None;
      storedUser := stored;
    }

    /** `login`: the gateway's user is stored and signed in; `null` is
        "wrong credentials"; a failing gateway or storage write is a
        connection error. Only a success changes the session. */
    method Login(email: string, password: string, reply: Call<Option<User>>, writeOk: bool) returns (ok: bool)
      requires Valid()
      modifies this
      ensures ok <==> reply.Returned? && reply.value.Some? && writeOk
      ensures ok ==> user == reply.value && isAuthenticated && error == None && storedUser == reply.value
      ensures !ok ==> user == old(user) && isAuthenticated == old(isAuthenticated) && storedUser == old(storedUser)
      ensures error == if ok then None
                       else if reply.Returned? && reply.value.None? then Some(INVALID_CREDENTIALS)
                       else Some(LOGIN_ERROR)
      ensures !isLoading && Valid()
    {
      isLoading, error := true, None;
      if reply.Threw? {
        error, isLoading := Some(LOGIN_ERROR), false;
        return false;
      }
      if reply.value.None? {
        error, isLoading := Some(INVALID_CREDENTIALS), false;
        return false;
      }
      if !writeOk {
        error, isLoading := Some(LOGIN_ERROR), false;
        return false;
      }
      storedUser := reply.value;
      user, isAuthenticated, isLoading := reply.value, true, false;
      ok := true;
    }

    /** `quickLogin`: as `login` with the gateway's demonstration user. */
    method QuickLogin(reply: Call<User>, writeOk: bool) returns (ok: bool)
      requires Valid()
      modifies this
      ensures ok <==> reply.Returned? && writeOk
      ensures ok ==> user == Some(reply.value) && isAuthenticated && error == None && storedUser == Some(reply.value)
      ensures !ok ==> user == old(user) && isAuthenticated == old(isAuthenticated) &&
                      storedUser == old(storedUser) && error == Some(QUICK_LOGIN_ERROR)
      ensures !isLoading && Valid()
    {
      isLoading, error := true, None;
      if reply.Threw? || !writeOk {
        error, isLoading := Some(QUICK_LOGIN_ERROR), false;
        return false;
      }
      storedUser := Some(reply.value);
      user, isAuthenticated, isLoading := Some(reply.value), true, false;
      ok := true;
    }

    /** `logout`: the stored user is removed, then the session ends. If the
        removal fails the session stays as it was. The error is not cleared
        first. */
    method Logout(removeOk: bool)
      requires Valid()
      modifies this
      ensures removeOk ==> user == None && !isAuthenticated && storedUser == None && error == old(error)
      ensures !removeOk ==> user == old(user) && isAuthenticated == old(isAuthenticated) &&
                            storedUser == old(storedUser) && error == Some(LOGOUT_ERROR)
      ensures !isLoading && Valid()
    {
      isLoading := true;
      if !removeOk {
        error, isLoading := Some(LOGOUT_ERROR), false;
        return;
      }
      storedUser := None;
      user, isAuthenticated, isLoading := None, false, false;
    }

    /** `checkAuth`: a stored user resumes the session; nothing stored, or
        a failed read, leaves the session as it was. The error is never
        touched. */
    method CheckAuth(readOk: bool) returns (ok: bool)
      requires Valid()
      modifies this`user, this`isAuthenticated, this`isLoading
      ensures ok <==> readOk && storedUser.Some?
      ensures ok ==> user == storedUser && isAuthenticated
      ensures !ok ==> user == old(user) && isAuthenticated == old(isAuthenticated)
      ensures !isLoading && Valid()
    {
      isLoading := true;
      if readOk && storedUser.Some? {
        user, isAuthenticated, isLoading := storedUser, true, false;
        return true;
      }
      isLoading := false;
      ok := false;
    }

    /** `updateUser`: merges the supplied fields into the signed-in user,
        once they are stored; nobody signed in means nothing to do. */
    method UpdateUser(p: UserPatch, writeOk: bool) returns (completed: bool)
      requires Valid()
      modifies this`user, this`storedUser
      ensures completed <==> old(user).None? || writeOk
      ensures old(user).Some? && writeOk ==>
                user == Some(PatchUser(old(user).value, p)) && storedUser == user
      ensures !(old(user).Some? && writeOk) ==> user == old(user) && storedUser == old(storedUser)
      ensures Valid()
    {
      if user.None? {
        return true;
      }
      if !writeOk {
        return false;
      }
      var updated := PatchUser(user.value, p);
      storedUser := Some(updated);
      user := Some(updated);
      completed := true;
    }

    /** `toggleCreatorMode`: flips the signed-in user's creator flag, once
        stored; nobody signed in means nothing to do. */
    method ToggleCreatorMode(writeOk: bool) returns (completed: bool)
      requires Valid()
      modifies this`user, this`storedUser
      ensures completed <==> old(user).None? || writeOk
      ensures old(user).Some? && writeOk ==>
                user == Some(ToggledCreator(old(user).value)) && storedUser == user
      ensures !(old(user).Some? && writeOk) ==> user == old(user) && storedUser == old(storedUser)
      ensures Valid()
    {
      if user.None? {
        return true;
      }
      if !writeOk {
        return false;
      }
      var updated := ToggledCreator(user.value);
      storedUser := Some(updated);
      user := Some(updated);
      completed := true;
    }

    /** `clearError`: only the error changes, so a second call changes
        nothing. */
    method ClearError()
      modifies this`error
      ensures error == None
    {
      error := None;
    }
  }
}
