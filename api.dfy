/** The backend as the tables see it: the product payloads, the HTTP requests
    they send and the replies those requests get. */
module Api {
  import opened Json
  import opened JsNumber
  import opened Entities

  /** The body of a product write. Creation names the owner by email; an
      update embeds a full copy of the owner. */
  datatype ProductPayload =
    | CreatePayload(nombre: string, precio: FloatValue, stock: IntValue, email: string)
    | UpdatePayload(nombre: string, precio: FloatValue, stock: IntValue, usuario: UserSnapshot)
  {
    /** The JSON object axios sends; a NaN stock is written as null. The body
        names the owner under `email` when creating and under `usuario` when
        updating, never both. */
    function Body(): (b: map<string, Json>)
      ensures CreatePayload? ==> b.Keys == {"nombre", "precio", "stock", "email"}
                                 && b["email"] == JString(email)
      ensures UpdatePayload? ==> b.Keys == {"nombre", "precio", "stock", "usuario"}
                                 && b["usuario"] == JObject(usuario.ToJson())
      ensures "nombre" in b && b["nombre"] == JString(nombre)
      ensures "precio" in b && b["precio"] == JParsedFloat(precio.text)
      ensures "stock" in b && b["stock"] == NumberJson(stock)
    {
      var common := map["nombre" := JString(nombre), "precio" := JParsedFloat(precio.text),
                         "stock" := NumberJson(stock)];
      match this
      case CreatePayload(_, _, _, email) => common["email" := JString(email)]
      case UpdatePayload(_, _, _, usuario) => common["usuario" := JObject(usuario.ToJson())]
    }
  }

  function NumberJson(v: IntValue): Json
  {
    match v
    case NaN => JNull
    case Int(i) => JInt(i)
  }

  /** The outbound HTTP requests, by method and path. */
  datatype Request =
    | GetProducts                                         // GET /productos
    | GetUsers                                            // GET /api/user
    | PostProduct(payload: ProductPayload)                // POST /productos
    | PatchProduct(id: string, payload: ProductPayload)   // PATCH /productos/{id}
    | DeleteProductRequest(id: string)                    // DELETE /productos/{id}
    | PostUser(form: UserForm)                            // POST /api/user
    | PutUser(id: string, form: UserForm)                 // PUT /api/user/{id}
    | DeleteUserRequest(id: string)                       // DELETE /api/user/{id}

  /** How an awaited request settles: the decoded `data.data`, or a failure
      with the message shown to the user. */
  datatype Reply<T> = Received(value: T) | Failed(message: string)
}
