/** The product table component: its state fields, the asynchronous handlers
    that update them, and the submit handler. Each `async` handler is split at
    its `await`: the first method runs up to the request, the `Resume` method
    runs what follows once the reply is in. Every method states each field's
    new value, so a field it does not mention as changed keeps its value. */
module TableProducts {
  import opened Base
  import opened Entities
  import opened Api
  import opened ProductReconciler
  import opened FetchHistory

  /** An `await` that has sent its request and waits for the reply. */
  datatype Awaiting = ProductsFetch | UsersFetch | Creation | Update | Deletion

  class ProductTable {
    var data: seq<Product>
    var loading: bool
    var isModalOpen: bool
    var editingProduct: Option<Product>
    var usuarios: seq<User>
    var formLoading: bool
    /** The HTTP requests sent so far, oldest first. */
    var requests: seq<Request>
    /** The awaits whose replies have not come in yet. */
    ghost var pending: multiset<Awaiting>
    /** The lists successful fetches delivered, oldest first. */
    ghost var productLists: seq<seq<Product>>
    ghost var userLists: seq<seq<User>>

    /** The cached lists change only by a successful fetch, and a busy flag is
        never left set without a request that will clear it. */
    ghost predicate Valid()
      reads this
    {
      data == Latest(productLists) && usuarios == Latest(userLists)
      && (loading ==> ProductsFetch in pending)
      && (formLoading ==> Creation in pending || Update in pending)
    }

    /** The initial `useState` values. */
    constructor ()
      ensures Valid()
      ensures data == [] && !loading && !isModalOpen && editingProduct == None
      ensures usuarios == [] && !formLoading && requests == []
      ensures pending == multiset{} && productLists == [] && userLists == []
    {
      data, loading, isModalOpen, editingProduct := [], false, false, None;
      usuarios, formLoading, requests := [], false, [];
      pending, productLists, userLists := multiset{}, [], [];
    }

    /** The mount effect: load both lists. */
    method Mount()
      requires Valid()
      modifies this
      ensures Valid()
      ensures loading && requests == old(requests) + [GetProducts, GetUsers]
      ensures pending == old(pending) + multiset{ProductsFetch} + multiset{UsersFetch}
      ensures data == old(data) && isModalOpen == old(isModalOpen) && editingProduct == old(editingProduct)
      ensures usuarios == old(usuarios) && formLoading == old(formLoading)
      ensures productLists == old(productLists) && userLists == old(userLists)
    {
      FetchProducts();
      FetchUsers();
    }

    method FetchProducts()
      requires Valid()
      modifies this
      ensures Valid()
      ensures loading && requests == old(requests) + [GetProducts]
      ensures pending == old(pending) + multiset{ProductsFetch}
      ensures data == old(data) && isModalOpen == old(isModalOpen) && editingProduct == old(editingProduct)
      ensures usuarios == old(usuarios) && formLoading == old(formLoading)
      ensures productLists == old(productLists) && userLists == old(userLists)
    {
      loading := true;
      requests := requests + [GetProducts];
      pending := pending + multiset{ProductsFetch};
    }

    /** The list is replaced wholesale on success and kept on failure; the
        spinner stops either way. */
    method ResumeFetchProducts(reply: Reply<seq<Product>>)
      requires Valid() && ProductsFetch in pending
      modifies this
      ensures Valid()
      ensures data == (if reply.Received? then reply.value else old(data))
      ensures productLists == old(productLists) + (if reply.Received? then [reply.value] else [])
      ensures !loading && pending == old(pending) - multiset{ProductsFetch}
      ensures isModalOpen == old(isModalOpen) && editingProduct == old(editingProduct)
      ensures usuarios == old(usuarios) && formLoading == old(formLoading)
      ensures requests == old(requests) && userLists == old(userLists)
    {
      if reply.Received? {
        data := reply.value;
        productLists := productLists + [reply.value];
      }
      loading := false;
      pending := pending - multiset{ProductsFetch};
    }

    method FetchUsers()
      requires Valid()
      modifies this
      ensures Valid()
      ensures requests == old(requests) + [GetUsers]
      ensures pending == old(pending) + multiset{UsersFetch}
      ensures data == old(data) && loading == old(loading) && isModalOpen == old(isModalOpen)
      ensures editingProduct == old(editingProduct) && usuarios == old(usuarios)
      ensures formLoading == old(formLoading)
      ensures productLists == old(productLists) && userLists == old(userLists)
    {
      requests := requests + [GetUsers];
      pending := pending + multiset{UsersFetch};
    }

    /** The user list is replaced on success and kept on failure. */
    method ResumeFetchUsers(reply: Reply<seq<User>>)
      requires Valid() && UsersFetch in pending
      modifies this
      ensures Valid()
      ensures usuarios == (if reply.Received? then reply.value else old(usuarios))
      ensures userLists == old(userLists) + (if reply.Received? then [reply.value] else [])
      ensures pending == old(pending) - multiset{UsersFetch}
      ensures data == old(data) && loading == old(loading) && isModalOpen == old(isModalOpen)
      ensures editingProduct == old(editingProduct) && formLoading == old(formLoading)
      ensures requests == old(requests) && productLists == old(productLists)
    {
      if reply.Received? {
        usuarios := reply.value;
        userLists := userLists + [reply.value];
      }
      pending := pending - multiset{UsersFetch};
    }

    method CreateProduct(values: ProductPayload)
      requires Valid()
      modifies this
      ensures Valid()
      ensures formLoading && requests == old(requests) + [PostProduct(values)]
      ensures pending == old(pending) + multiset{Creation}
      ensures data == old(data) && loading == old(loading) && isModalOpen == old(isModalOpen)
      ensures editingProduct == old(editingProduct) && usuarios == old(usuarios)
      ensures productLists == old(productLists) && userLists == old(userLists)
    {
      formLoading := true;
      requests := requests + [PostProduct(values)];
      pending := pending + multiset{Creation};
    }

    /** Success refetches and closes the modal, keeping its target; failure
        keeps the modal as it is. The button stops either way. */
    method ResumeCreateProduct(reply: Reply<()>)
      requires Valid() && Creation in pending
      modifies this
      ensures Valid()
      ensures reply.Received? ==>
        loading && !isModalOpen && requests == old(requests) + [GetProducts]
        && pending == old(pending) + multiset{ProductsFetch} - multiset{Creation}
      ensures reply.Failed? ==>
        loading == old(loading) && isModalOpen == old(isModalOpen) && requests == old(requests)
        && pending == old(pending) - multiset{Creation}
      ensures !formLoading
      ensures data == old(data) && editingProduct == old(editingProduct) && usuarios == old(usuarios)
      ensures productLists == old(productLists) && userLists == old(userLists)
    {
      if reply.Received? {
        FetchProducts();
        isModalOpen := false;
      }
      formLoading := false;
      pending := pending - multiset{Creation};
    }

    /** The PATCH goes to the product being edited. With no product being
        edited, reading its `_id` throws inside the `try`: no request is sent
        and the `finally` clears the flag. */
    method UpdateProduct(values: ProductPayload)
      requires Valid()
      modifies this
      ensures Valid()
      ensures old(editingProduct).Some? ==>
        formLoading && requests == old(requests) + [PatchProduct(old(editingProduct).value.id, values)]
        && pending == old(pending) + multiset{Update}
      ensures old(editingProduct).None? ==>
        !formLoading && requests == old(requests) && pending == old(pending)
      ensures data == old(data) && loading == old(loading) && isModalOpen == old(isModalOpen)
      ensures editingProduct == old(editingProduct) && usuarios == old(usuarios)
      ensures productLists == old(productLists) && userLists == old(userLists)
    {
      formLoading := true;
      match editingProduct
      case None =>
        formLoading := false;
      case Some(p) =>
        requests := requests + [PatchProduct(p.id, values)];
        pending := pending + multiset{Update};
    }

    /** Success refetches, closes the modal and clears its target; failure
        keeps both. The button stops either way. */
    method ResumeUpdateProduct(reply: Reply<()>)
      requires Valid() && Update in pending
      modifies this
      ensures Valid()
      ensures reply.Received? ==>
        loading && !isModalOpen && editingProduct == None && requests == old(requests) + [GetProducts]
        && pending == old(pending) + multiset{ProductsFetch} - multiset{Update}
      ensures reply.Failed? ==>
        loading == old(loading) && isModalOpen == old(isModalOpen) && editingProduct == old(editingProduct)
        && requests == old(requests) && pending == old(pending) - multiset{Update}
      ensures !formLoading
      ensures data == old(data) && usuarios == old(usuarios)
      ensures productLists == old(productLists) && userLists == old(userLists)
    {
      if reply.Received? {
        FetchProducts();
        isModalOpen := false;
        editingProduct := None;
      }
      formLoading := false;
      pending := pending - multiset{Update};
    }

    /** The cached list is left to the refetch; the row is not removed here. */
    method DeleteProduct(productId: string)
      requires Valid()
      modifies this
      ensures Valid()
      ensures requests == old(requests) + [DeleteProductRequest(productId)]
      ensures pending == old(pending) + multiset{Deletion}
      ensures data == old(data) && loading == old(loading) && isModalOpen == old(isModalOpen)
      ensures editingProduct == old(editingProduct) && usuarios == old(usuarios)
      ensures formLoading == old(formLoading)
      ensures productLists == old(productLists) && userLists == old(userLists)
    {
      requests := requests + [DeleteProductRequest(productId)];
      pending := pending + multiset{Deletion};
    }

    /** Only success refetches; the cached list stays as it was either way. */
    method ResumeDeleteProduct(reply: Reply<()>)
      requires Valid() && Deletion in pending
      modifies this
      ensures Valid()
      ensures reply.Received? ==>
        loading && requests == old(requests) + [GetProducts]
        && pending == old(pending) + multiset{ProductsFetch} - multiset{Deletion}
      ensures reply.Failed? ==>
        loading == old(loading) && requests == old(requests) && pending == old(pending) - multiset{Deletion}
      ensures data == old(data) && isModalOpen == old(isModalOpen) && editingProduct == old(editingProduct)
      ensures usuarios == old(usuarios) && formLoading == old(formLoading)
      ensures productLists == old(productLists) && userLists == old(userLists)
    {
      if reply.Received? {
        FetchProducts();
      }
      pending := pending - multiset{Deletion};
    }

    /** Open the modal on `product`, or on a new product when it is `None`;
        the last call wins. */
    method ShowModal(product: Option<Product>)
      requires Valid()
      modifies this
      ensures Valid()
      ensures editingProduct == product && isModalOpen
      ensures data == old(data) && loading == old(loading) && usuarios == old(usuarios)
      ensures formLoading == old(formLoading) && requests == old(requests) && pending == old(pending)
      ensures productLists == old(productLists) && userLists == old(userLists)
    {
      editingProduct := product;
      isModalOpen := true;
    }

    method HandleCancel()
      requires Valid()
      modifies this
      ensures Valid()
      ensures editingProduct == None && !isModalOpen
      ensures data == old(data) && loading == old(loading) && usuarios == old(usuarios)
      ensures formLoading == old(formLoading) && requests == old(requests) && pending == old(pending)
      ensures productLists == old(productLists) && userLists == old(userLists)
    {
      isModalOpen := false;
      editingProduct := None;
    }

    /** The submit handler: an unknown user stops it with nothing sent and
        nothing changed; otherwise the request `Submission` describes goes
        out, through `UpdateProduct` when a product is being edited and
        through `CreateProduct` when not. */
    method HandleOk(values: ProductForm)
      requires Valid()
      modifies this
      ensures Valid()
      ensures Submission(values, old(usuarios), old(editingProduct)).Err? ==>
        formLoading == old(formLoading) && requests == old(requests) && pending == old(pending)
      ensures Submission(values, old(usuarios), old(editingProduct)).Ok? ==>
        formLoading
        && requests == old(requests) + [Submission(values, old(usuarios), old(editingProduct)).value]
        && pending == old(pending) + multiset{if old(editingProduct).Some? then Update else Creation}
      ensures data == old(data) && loading == old(loading) && isModalOpen == old(isModalOpen)
      ensures editingProduct == old(editingProduct) && usuarios == old(usuarios)
      ensures productLists == old(productLists) && userLists == old(userLists)
    {
      var selected := Find(usuarios, values.usuario);
      if selected.None? {
        return;
      }
      var payload := Reconcile(values, selected.value, editingProduct.Some?);
      if editingProduct.Some? {
        UpdateProduct(payload);
      } else {
        CreateProduct(payload);
      }
    }
  }
}
