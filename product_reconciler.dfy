/** The pure part of the product form's submit handler: find the chosen user
    in the loaded list, build the payload the target endpoint expects, and
    pick the request that carries it. */
module ProductReconciler {
  import opened Base
  import opened Json
  import opened JsNumber
  import opened Entities
  import opened Api

  datatype SubmitError = UserNotFound

  /** `users.find(user => user._id === id)`: a left-to-right scan. */
  function Find(users: seq<User>, id: string): (r: Option<User>)
    ensures r.None? <==> forall i | 0 <= i < |users| :: users[i].id != id
    ensures r.Some? ==> r.value in users && r.value.id == id
  {
    if users == [] then None
    else if users[0].id == id then Some(users[0])
    else Find(users[1..], id)
  }

  /** Of several users with the same id, the first one is found. */
  lemma {:induction false} FindReturnsFirstMatch(users: seq<User>, id: string, i: nat)
    requires i < |users| && users[i].id == id
    requires forall j | 0 <= j < i :: users[j].id != id
    ensures Find(users, id) == Some(users[i])
  {
    if i > 0 {
      FindReturnsFirstMatch(users[1..], id, i - 1);
    }
  }

  /** The payload for a resolved user: the whole user when a product is being
      edited, only its email when one is being created. */
  function Reconcile(values: ProductForm, user: User, editing: bool): (r: ProductPayload)
    ensures r.nombre == values.nombre && r.precio == ParseFloat(values.precio)
    ensures r.stock == ParseInt(values.stock)
    ensures r.UpdatePayload? <==> editing
    ensures r.UpdatePayload? ==> r.usuario.ToJson() == Restrict(user.ToJson(), SnapshotKeys)
    ensures r.CreatePayload? ==> r.email == user.email
  {
    var precio := ParseFloat(values.precio);
    var stock := ParseInt(values.stock);
    if editing then UpdatePayload(values.nombre, precio, stock, Snapshot(user))
    else CreatePayload(values.nombre, precio, stock, user.email)
  }

  /** The request a submission issues, or why it issues none. The same test
      on `editing` chooses both the payload shape and the endpoint. */
  function Submission(values: ProductForm, usuarios: seq<User>, editing: Option<Product>)
    : (r: Result<Request, SubmitError>)
    ensures r.Err? <==> forall i | 0 <= i < |usuarios| :: usuarios[i].id != values.usuario
    ensures r.Ok? && editing.None? ==> r.value.PostProduct? && r.value.payload.CreatePayload?
    ensures r.Ok? && editing.Some? ==>
      r.value.PatchProduct? && r.value.id == editing.value.id && r.value.payload.UpdatePayload?
  {
    match Find(usuarios, values.usuario)
    case None => Err(UserNotFound)
    case Some(user) =>
      var payload := Reconcile(values, user, editing.Some?);
      if editing.Some? then Ok(PatchProduct(editing.value.id, payload)) else Ok(PostProduct(payload))
  }

  /** Creating: the body has exactly `nombre`, `precio`, `stock` and `email`,
      the name is copied, the stock is `parseInt` of the text and the email is
      that of the first user with the chosen id. */
  lemma {:induction false} CreateSubmission(values: ProductForm, usuarios: seq<User>, i: nat)
    requires i < |usuarios| && usuarios[i].id == values.usuario
    requires forall j | 0 <= j < i :: usuarios[j].id != values.usuario
    ensures var r := Submission(values, usuarios, None);
      r.Ok? && r.value.PostProduct? &&
      var body := r.value.payload.Body();
      body.Keys == {"nombre", "precio", "stock", "email"} &&
      body["nombre"] == JString(values.nombre) &&
      body["precio"] == JParsedFloat(values.precio) &&
      body["stock"] == NumberJson(ParseInt(values.stock)) &&
      body["email"] == JString(usuarios[i].email)
  {
    FindReturnsFirstMatch(usuarios, values.usuario, i);
    var p := Reconcile(values, usuarios[i], false);
    assert Submission(values, usuarios, None) == Ok(PostProduct(p));
  }

  /** Updating: PATCH to the edited product's id, with `nombre`, `precio`,
      `stock` and a `usuario` object holding the nine fields of the first user
      with the chosen id; no top-level `email`. */
  lemma {:induction false} UpdateSubmission(values: ProductForm, usuarios: seq<User>, product: Product, i: nat)
    requires i < |usuarios| && usuarios[i].id == values.usuario
    requires forall j | 0 <= j < i :: usuarios[j].id != values.usuario
    ensures var r := Submission(values, usuarios, Some(product));
      r.Ok? && r.value.PatchProduct? && r.value.id == product.id &&
      var body := r.value.payload.Body();
      body.Keys == {"nombre", "precio", "stock", "usuario"} &&
      "email" !in body &&
      body["nombre"] == JString(values.nombre) &&
      body["precio"] == JParsedFloat(values.precio) &&
      body["stock"] == NumberJson(ParseInt(values.stock)) &&
      body["usuario"] == JObject(Restrict(usuarios[i].ToJson(), SnapshotKeys))
  {
    FindReturnsFirstMatch(usuarios, values.usuario, i);
    var p := Reconcile(values, usuarios[i], true);
    assert Submission(values, usuarios, Some(product)) == Ok(PatchProduct(product.id, p));
  }

  /** In either branch a stock typed as the decimal spelling of `n` is sent as
      the number `n`. */
  lemma {:induction false} SubmissionStockRoundTrip(values: ProductForm, usuarios: seq<User>, editing: Option<Product>, n: nat)
    requires values.stock == DecimalString(n)
    requires Submission(values, usuarios, editing).Ok?
    ensures Submission(values, usuarios, editing).value.payload.stock == Int(n)
    ensures Submission(values, usuarios, editing).value.payload.Body()["stock"] == JInt(n)
  {
    ParseIntDecimalRoundTrip(n);
  }

  /** The create and update payloads for one user differ only in how they name
      the owner: the email alone, or the full copy carrying that same email. */
  lemma {:induction false} PayloadAsymmetry(values: ProductForm, user: User)
    ensures var c, u := Reconcile(values, user, false), Reconcile(values, user, true);
      c.nombre == u.nombre && c.precio == u.precio && c.stock == u.stock &&
      c.email == u.usuario.email == user.email &&
      u.usuario.ToJson() == Restrict(user.ToJson(), SnapshotKeys)
  {
  }

  /** The worked example: one loaded user "u1"; creating "Widget" at "9.5"
      with stock "3" POSTs the email, and editing a product with the same
      form PATCHes that product with the user's fields embedded. */
  lemma WidgetExample(product: Product)
    ensures var ana := User("u1", "Ana", "Lee", "a@x.com", "Ventas", "555", "123", "Calle 1", "admin", map[]);
      var values := ProductForm("Widget", "9.5", "3", "u1");
      Submission(values, [ana], None)
        == Ok(PostProduct(CreatePayload("Widget", ParseFloatOf("9.5"), Int(3), "a@x.com")))
      && Submission(values, [ana], Some(product))
        == Ok(PatchProduct(product.id, UpdatePayload("Widget", ParseFloatOf("9.5"), Int(3),
                UserSnapshot("u1", "Ana", "Lee", "a@x.com", "Ventas", "555", "123", "Calle 1", "admin"))))
  {
    ParseIntDecimalRoundTrip(3);
    assert DecimalString(3) == "3";
  }
}
