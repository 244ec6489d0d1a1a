/** The records the two tables hold and the values their forms submit. Field
    names follow the backend's JSON keys, including its spelling "firtname". */
module Entities {
  import opened Json

  /** The nine user fields a product's embedded user copies. */
  const SnapshotKeys: set<string> :=
    {"_id", "firtname", "lastname", "email", "area", "celular", "documento", "domicilio", "rol"}

  /** A user as the list endpoint returns it; `others` holds whatever further
      keys the server sends along. */
  datatype User = User(
    id: string, firtname: string, lastname: string, email: string, area: string,
    celular: string, documento: string, domicilio: string, rol: string,
    others: map<string, Json>)
  {
    /** The record as a JSON object; the nine named fields win over `others`. */
    function ToJson(): map<string, Json>
    {
      others + map[
        "_id" := JString(id), "firtname" := JString(firtname), "lastname" := JString(lastname),
        "email" := JString(email), "area" := JString(area), "celular" := JString(celular),
        "documento" := JString(documento), "domicilio" := JString(domicilio), "rol" := JString(rol)]
    }
  }

  /** A denormalised copy of a user, embedded in a product. */
  datatype UserSnapshot = UserSnapshot(
    id: string, firtname: string, lastname: string, email: string, area: string,
    celular: string, documento: string, domicilio: string, rol: string)
  {
    function ToJson(): map<string, Json>
    {
      map[
        "_id" := JString(id), "firtname" := JString(firtname), "lastname" := JString(lastname),
        "email" := JString(email), "area" := JString(area), "celular" := JString(celular),
        "documento" := JString(documento), "domicilio" := JString(domicilio), "rol" := JString(rol)]
    }
  }

  /** The `usuario` object of an update payload, built field by field: as
      JSON it is exactly the user's record cut down to the nine keys. */
  function Snapshot(u: User): (r: UserSnapshot)
    ensures r.ToJson() == Restrict(u.ToJson(), SnapshotKeys)
  {
    var r := UserSnapshot(u.id, u.firtname, u.lastname, u.email, u.area, u.celular, u.documento,
                          u.domicilio, u.rol);
    assert r.ToJson().Keys == SnapshotKeys;
    assert Restrict(u.ToJson(), SnapshotKeys).Keys == SnapshotKeys;
    r
  }

  /** A product as the list endpoint returns it. */
  datatype Product = Product(id: string, nombre: string, precio: Json, stock: Json, usuario: UserSnapshot)

  /** What the product form submits: the four fields as the inputs hold them;
      `usuario` is the `_id` chosen in the user select. */
  datatype ProductForm = ProductForm(nombre: string, precio: string, stock: string, usuario: string)

  /** What the user form submits. */
  datatype UserForm = UserForm(firtname: string, lastname: string, email: string, rol: string)
}
