/** The user table component: its state fields, the asynchronous handlers
    that update them, and the submit handler. As in the product table, each
    `async` handler is split at its `await`, and every method states each
    field's new value. */
module TableUsers {
  import opened Base
  import opened Entities
  import opened Api
  import opened FetchHistory

  /** The request a submit sends: a PUT to the user being edited, or a POST
      when there is none. The form values are sent unchanged either way. */
  function UserSubmission(values: UserForm, editing: Option<User>): (r: Request)
    ensures r.PostUser? || r.PutUser?
    ensures r.form == values
    ensures r.PutUser? <==> editing.Some?
    ensures r.PutUser? ==> r.id == editing.value.id
  {
    match editing
    case Some(u) => PutUser(u.id, values)
    case None => PostUser(values)
  }

  /** An `await` that has sent its request and waits for the reply. */
  datatype Awaiting = UsersFetch | Creation | Update | Deletion

  class UserTable {
    var data: seq<User>
    var loading: bool
    var isModalOpen: bool
    var editingUser: Option<User>
    var formLoading: bool
    /** The HTTP requests sent so far, oldest first. */
    var requests: seq<Request>
    /** The awaits whose replies have not come in yet. */
    ghost var pending: multiset<Awaiting>
    /** The lists successful fetches delivered, oldest first. */
    ghost var userLists: seq<seq<User>>

    /** The cached list changes only by a successful fetch, and a busy flag is
        never left set without a request that will clear it. */
    ghost predicate Valid()
      reads this
    {
      data == Latest(userLists)
      && (loading ==> UsersFetch in pending)
      && (formLoading ==> Creation in pending || Update in pending)
    }

    /** The initial `useState` values. */
    constructor ()
      ensures Valid()
      ensures data == [] && !loading && !isModalOpen && editingUser == None
      ensures !formLoading && requests == [] && pending == multiset{} && userLists == []
    {
      data, loading, isModalOpen, editingUser := [], false, false, None;
      formLoading, requests := false, [];
      pending, userLists := multiset{}, [];
    }

    /** The mount effect: load the list. */
    method Mount()
      requires Valid()
      modifies this
      ensures Valid()
      ensures loading && requests == old(requests) + [GetUsers]
      ensures pending == old(pending) + multiset{UsersFetch}
      ensures data == old(data) && isModalOpen == old(isModalOpen) && editingUser == old(editingUser)
      ensures formLoading == old(formLoading) && userLists == old(userLists)
    {
      FetchUsers();
    }

    method FetchUsers()
      requires Valid()
      modifies this
      ensures Valid()
      ensures loading && requests == old(requests) + [GetUsers]
      ensures pending == old(pending) + multiset{UsersFetch}
      ensures data == old(data) && isModalOpen == old(isModalOpen) && editingUser == old(editingUser)
      ensures formLoading == old(formLoading) && userLists == old(userLists)
    {
      loading := true;
      requests := requests + [GetUsers];
      pending := pending + multiset{UsersFetch};
    }

    /** The list is replaced wholesale on success and kept on failure; the
        spinner stops either way. */
    method ResumeFetchUsers(reply: Reply<seq<User>>)
      requires Valid() && UsersFetch in pending
      modifies this
      ensures Valid()
      ensures data == (if reply.Received? then reply.value else old(data))
      ensures userLists == old(userLists) + (if reply.Received? then [reply.value] else [])
      ensures !loading && pending == old(pending) - multiset{UsersFetch}
      ensures isModalOpen == old(isModalOpen) && editingUser == old(editingUser)
      ensures formLoading == old(formLoading) && requests == old(requests)
    {
      if reply.Received? {
        data := reply.value;
        userLists := userLists + [reply.value];
      }
      loading := false;
      pending := pending - multiset{UsersFetch};
    }

    method CreateUser(values: UserForm)
      requires Valid()
      modifies this
      ensures Valid()
      ensures formLoading && requests == old(requests) + [PostUser(values)]
      ensures pending == old(pending) + multiset{Creation}
      ensures data == old(data) && loading == old(loading) && isModalOpen == old(isModalOpen)
      ensures editingUser == old(editingUser) && userLists == old(userLists)
    {
      formLoading := true;
      requests := requests + [PostUser(values)];
      pending := pending + multiset{Creation};
    }

    /** Success refetches and closes the modal, keeping its target; failure
        keeps the modal as it is. The button stops either way. */
    method ResumeCreateUser(reply: Reply<()>)
      requires Valid() && Creation in pending
      modifies this
      ensures Valid()
      ensures reply.Received? ==>
        loading && !isModalOpen && requests == old(requests) + [GetUsers]
        && pending == old(pending) + multiset{UsersFetch} - multiset{Creation}
      ensures reply.Failed? ==>
        loading == old(loading) && isModalOpen == old(isModalOpen) && requests == old(requests)
        && pending == old(pending) - multiset{Creation}
      ensures !formLoading
      ensures data == old(data) && editingUser == old(editingUser) && userLists == old(userLists)
    {
      if reply.Received? {
        FetchUsers();
        isModalOpen := false;
      }
      formLoading := false;
      pending := pending - multiset{Creation};
    }

    /** The PUT goes to the user being edited. With no user being edited,
        reading its `_id` throws inside the `try`: no request is sent and the
        `finally` clears the flag. */
    method UpdateUser(values: UserForm)
      requires Valid()
      modifies this
      ensures Valid()
      ensures old(editingUser).Some? ==>
        formLoading && requests == old(requests) + [PutUser(old(editingUser).value.id, values)]
        && pending == old(pending) + multiset{Update}
      ensures old(editingUser).None? ==>
        !formLoading && requests == old(requests) && pending == old(pending)
      ensures data == old(data) && loading == old(loading) && isModalOpen == old(isModalOpen)
      ensures editingUser == old(editingUser) && userLists == old(userLists)
    {
      formLoading := true;
      match editingUser
      case None =>
        formLoading := false;
      case Some(u) =>
        requests := requests + [PutUser(u.id, values)];
        pending := pending + multiset{Update};
    }

    /** Success refetches, closes the modal and clears its target; failure
        keeps both. The button stops either way. */
    method ResumeUpdateUser(reply: Reply<()>)
      requires Valid() && Update in pending
      modifies this
      ensures Valid()
      ensures reply.Received? ==>
        loading && !isModalOpen && editingUser == None && requests == old(requests) + [GetUsers]
        && pending == old(pending) + multiset{UsersFetch} - multiset{Update}
      ensures reply.Failed? ==>
        loading == old(loading) && isModalOpen == old(isModalOpen) && editingUser == old(editingUser)
        && requests == old(requests) && pending == old(pending) - multiset{Update}
      ensures !formLoading
      ensures data == old(data) && userLists == old(userLists)
    {
      if reply.Received? {
        FetchUsers();
        isModalOpen := false;
        editingUser := None;
      }
      formLoading := false;
      pending := pending - multiset{Update};
    }

    /** The cached list is left to the refetch; the row is not removed here. */
    method DeleteUser(userId: string)
      requires Valid()
      modifies this
      ensures Valid()
      ensures requests == old(requests) + [DeleteUserRequest(userId)]
      ensures pending == old(pending) + multiset{Deletion}
      ensures data == old(data) && loading == old(loading) && isModalOpen == old(isModalOpen)
      ensures editingUser == old(editingUser) && formLoading == old(formLoading)
      ensures userLists == old(userLists)
    {
      requests := requests + [DeleteUserRequest(userId)];
      pending := pending + multiset{Deletion};
    }

    /** Only success refetches; the cached list stays as it was either way. */
    method ResumeDeleteUser(reply: Reply<()>)
      requires Valid() && Deletion in pending
      modifies this
      ensures Valid()
      ensures reply.Received? ==>
        loading && requests == old(requests) + [GetUsers]
        && pending == old(pending) + multiset{UsersFetch} - multiset{Deletion}
      ensures reply.Failed? ==>
        loading == old(loading) && requests == old(requests) && pending == old(pending) - multiset{Deletion}
      ensures data == old(data) && isModalOpen == old(isModalOpen) && editingUser == old(editingUser)
      ensures formLoading == old(formLoading) && userLists == old(userLists)
    {
      if reply.Received? {
        FetchUsers();
      }
      pending := pending - multiset{Deletion};
    }

    /** Open the modal on `user`, or on a new user when it is `None`; the last
        call wins. */
    method ShowModal(user: Option<User>)
      requires Valid()
      modifies this
      ensures Valid()
      ensures editingUser == user && isModalOpen
      ensures data == old(data) && loading == old(loading) && formLoading == old(formLoading)
      ensures requests == old(requests) && pending == old(pending) && userLists == old(userLists)
    {
      editingUser := user;
      isModalOpen := true;
    }

    method HandleCancel()
      requires Valid()
      modifies this
      ensures Valid()
      ensures editingUser == None && !isModalOpen
      ensures data == old(data) && loading == old(loading) && formLoading == old(formLoading)
      ensures requests == old(requests) && pending == old(pending) && userLists == old(userLists)
    {
      isModalOpen := false;
      editingUser := None;
    }

    /** The submit handler: the request `UserSubmission` describes goes out,
        through `UpdateUser` when a user is being edited and through
        `CreateUser` when not. */
    method HandleOk(values: UserForm)
      requires Valid()
      modifies this
      ensures Valid()
      ensures formLoading && requests == old(requests) + [UserSubmission(values, old(editingUser))]
      ensures pending == old(pending) + multiset{if old(editingUser).Some? then Update else Creation}
      ensures data == old(data) && loading == old(loading) && isModalOpen == old(isModalOpen)
      ensures editingUser == old(editingUser) && userLists == old(userLists)
    {
      if editingUser.Some? {
        UpdateUser(values);
      } else {
        CreateUser(values);
      }
    }
  }
}
