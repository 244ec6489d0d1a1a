/** Sessions run against freshly mounted tables, from the clicks and replies
    the user and the backend supply. Each states what the table shows and
    what it has sent at the end. */
module Scenarios {
  import opened Base
  import opened Entities
  import opened Api
  import opened ProductReconciler
  import TableProducts
  import TableUsers

  /** Editing a product whose PATCH fails leaves the modal open on that
      product, with the submit button no longer spinning. */
  method FailedProductEditKeepsSession(product: Product, values: ProductForm, usuarios: seq<User>, message: string)
    returns (open: bool, target: Option<Product>, busy: bool, sent: seq<Request>)
    requires Submission(values, usuarios, Some(product)).Ok?
    ensures open && target == Some(product) && !busy
    ensures sent == [GetProducts, GetUsers, PatchProduct(product.id, Submission(values, usuarios, Some(product)).value.payload)]
  {
    var t := new TableProducts.ProductTable();
    t.Mount();
    t.ResumeFetchUsers(Received(usuarios));
    t.ShowModal(Some(product));
    assert t.usuarios == usuarios && t.editingProduct == Some(product);
    t.HandleOk(values);
    assert t.requests == [GetProducts, GetUsers, Submission(values, usuarios, Some(product)).value];
    t.ResumeUpdateProduct(Failed(message));
    open, target, busy, sent := t.isModalOpen, t.editingProduct, t.formLoading, t.requests;
  }

  /** A successful edit closes the modal, clears its target and refetches;
      the table then shows exactly the list the refetch returns. */
  method SuccessfulProductEditRefetches(product: Product, values: ProductForm, usuarios: seq<User>, list: seq<Product>)
    returns (open: bool, target: Option<Product>, busy: bool, rows: seq<Product>, sent: seq<Request>)
    requires Submission(values, usuarios, Some(product)).Ok?
    ensures !open && target == None && !busy && rows == list
    ensures sent == [GetProducts, GetUsers, Submission(values, usuarios, Some(product)).value, GetProducts]
  {
    var t := new TableProducts.ProductTable();
    t.Mount();
    t.ResumeFetchUsers(Received(usuarios));
    t.ShowModal(Some(product));
    assert t.usuarios == usuarios && t.editingProduct == Some(product);
    t.HandleOk(values);
    assert t.requests == [GetProducts, GetUsers, Submission(values, usuarios, Some(product)).value];
    t.ResumeUpdateProduct(Received(()));
    t.ResumeFetchProducts(Received(list));
    open, target, busy, rows, sent := t.isModalOpen, t.editingProduct, t.formLoading, t.data, t.requests;
  }

  /** Choosing a user that is not in the loaded list sends nothing and leaves
      the open modal as it was. */
  method UnknownUserSendsNothing(values: ProductForm, usuarios: seq<User>, editing: Option<Product>)
    returns (open: bool, target: Option<Product>, busy: bool, sent: seq<Request>)
    requires forall i | 0 <= i < |usuarios| :: usuarios[i].id != values.usuario
    ensures open && target == editing && !busy && sent == [GetProducts, GetUsers]
  {
    var t := new TableProducts.ProductTable();
    t.Mount();
    t.ResumeFetchUsers(Received(usuarios));
    t.ShowModal(editing);
    t.HandleOk(values);
    open, target, busy, sent := t.isModalOpen, t.editingProduct, t.formLoading, t.requests;
  }

  /** Deleting a row leaves the cached list alone, even when the delete
      succeeds; only the refetch it triggers can change it, and a failing
      refetch does not. */
  method DeleteLeavesListToRefetch(list: seq<Product>, productId: string, message: string)
    returns (afterDelete: seq<Product>, afterRefetch: seq<Product>, loading: bool, sent: seq<Request>)
    ensures afterDelete == list && afterRefetch == list && !loading
    ensures sent == [GetProducts, GetUsers, DeleteProductRequest(productId), GetProducts]
  {
    var t := new TableProducts.ProductTable();
    t.Mount();
    t.ResumeFetchProducts(Received(list));
    t.DeleteProduct(productId);
    t.ResumeDeleteProduct(Received(()));
    afterDelete := t.data;
    t.ResumeFetchProducts(Failed(message));
    afterRefetch, loading, sent := t.data, t.loading, t.requests;
  }

  /** Of two `showModal` calls the second one sets the target; cancelling
      then closes the modal and clears it. */
  method LastShowModalWins(first: Option<Product>, second: Option<Product>)
    returns (target: Option<Product>, open: bool, targetAfterCancel: Option<Product>, openAfterCancel: bool)
    ensures target == second && open
    ensures targetAfterCancel == None && !openAfterCancel
  {
    var t := new TableProducts.ProductTable();
    t.ShowModal(first);
    t.ShowModal(second);
    target, open := t.editingProduct, t.isModalOpen;
    t.HandleCancel();
    targetAfterCancel, openAfterCancel := t.editingProduct, t.isModalOpen;
  }

  /** Editing a user sends the form values untouched in a PUT to that user;
      a failed PUT leaves the modal open on the user. */
  method FailedUserEditKeepsSession(user: User, values: UserForm, message: string)
    returns (open: bool, target: Option<User>, busy: bool, sent: seq<Request>)
    ensures open && target == Some(user) && !busy
    ensures sent == [GetUsers, PutUser(user.id, values)]
  {
    var t := new TableUsers.UserTable();
    t.Mount();
    t.ShowModal(Some(user));
    t.HandleOk(values);
    t.ResumeUpdateUser(Failed(message));
    open, target, busy, sent := t.isModalOpen, t.editingUser, t.formLoading, t.requests;
  }

  /** Creating a user: the button spins while the POST is out; success closes
      the modal and refetches, and the table shows the refetched list. */
  method CreatedUserRefetches(values: UserForm, list: seq<User>)
    returns (busyWhilePending: bool, busy: bool, open: bool, rows: seq<User>, sent: seq<Request>)
    ensures busyWhilePending && !busy && !open && rows == list
    ensures sent == [GetUsers, PostUser(values), GetUsers]
  {
    var t := new TableUsers.UserTable();
    t.Mount();
    t.ShowModal(None);
    t.HandleOk(values);
    busyWhilePending := t.formLoading;
    t.ResumeCreateUser(Received(()));
    t.ResumeFetchUsers(Received(list));
    busy, open, rows, sent := t.formLoading, t.isModalOpen, t.data, t.requests;
  }
}
