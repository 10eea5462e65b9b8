/**
 * The product catalogue: the `Producto` schema as a row invariant, the
 * validation chain shared by create and update, and the table handlers.
 * Prices are exact integer cents.
 */
module Catalog {
  import opened Common
  import opened Http

  /** `DECIMAL(10, 2)` holds at most 8 integer digits: prices below 10^10 cents. */
  const PrecioLimit: int := 10_000_000_000

  datatype Producto = Producto(
    id: int,
    nombre: string,
    descripcion: Option<string>,
    precio: int,
    categoria: Option<string>,
    imagen: Option<string>,
    disponible: bool)

  /** The column constraints: `nombre` non-empty, `precio` non-negative and representable. */
  predicate ProductoValid(p: Producto) {
    p.nombre != "" && 0 <= p.precio < PrecioLimit
  }

  /** The fields read from a create or update request; `None` is an absent field. */
  datatype ProductoBody = ProductoBody(
    nombre: Option<string>,
    descripcion: Option<string>,
    precio: Option<int>,
    categoria: Option<string>,
    imagen: Option<string>,
    disponible: Option<bool>)

  /** A success body: the confirmation text and the row as saved. */
  datatype Saved = Saved(mensaje: string, producto: Producto)

  /** The body of a successful delete: the confirmation text and the id. */
  datatype Deleted = Deleted(mensaje: string, id: int)

  const NotFound := Reply(404, NoCode, "Producto no encontrado")
  const MissingFields := Reply(400, NoCode, "Nombre y precio son campos obligatorios")
  const NegativePrice := Reply(400, NoCode, "El precio no puede ser negativo")
  const ValidationFailed := Reply(400, NoCode, "Error de validación")
  const CreateFailed := Reply(500, NoCode, "Error al crear producto")
  const UpdateFailed := Reply(500, NoCode, "Error al actualizar producto")

  /** `s ? s.trim() : null`: an absent or empty text is stored as null. */
  function TrimOrNull(s: Option<string>): (r: Option<string>)
    ensures r.None? <==> !Present(s)
    ensures r.Some? ==> r.value == Trim(s.value)
  {
    if Present(s) then Some(Trim(s.value)) else None
  }

  /**
   * The checks a create or update runs before writing: a falsy `nombre` or
   * `precio` (so also a zero price), then a negative price (400 each), then the
   * `notEmpty` validator on the trimmed name (400), then the column range (500).
   */
  function ValidarProducto(body: ProductoBody, dbError: Reply): (r: Option<Reply>)
    requires dbError.status == 500
    ensures r.None? <==> Present(body.nombre) && body.precio.Some? && 0 < body.precio.value < PrecioLimit
                          && Trim(body.nombre.value) != ""
    ensures !Present(body.nombre) || body.precio.None? || body.precio == Some(0) ==> r == Some(MissingFields)
    ensures r == Some(NegativePrice) <==> Present(body.nombre) && body.precio.Some? && body.precio.value < 0
    ensures r == Some(ValidationFailed) ==> Present(body.nombre) && Trim(body.nombre.value) == ""
    ensures r.Some? && r.value.status == 500 ==> r.value == dbError
  {
    if !Present(body.nombre) || body.precio.None? || body.precio.value == 0 then Some(MissingFields)
    else if body.precio.value < 0 then Some(NegativePrice)
    else if Trim(body.nombre.value) == "" then Some(ValidationFailed)
    else if body.precio.value >= PrecioLimit then Some(dbError)
    else None
  }

  /** The row written for an accepted body; `disponible` falls back to `keep` when absent. */
  function FromBody(id: int, body: ProductoBody, keep: bool): (p: Producto)
    requires Present(body.nombre) && body.precio.Some?
    ensures p.id == id && p.nombre == Trim(body.nombre.value) && p.precio == body.precio.value
    ensures p.descripcion == TrimOrNull(body.descripcion)
    ensures p.categoria == TrimOrNull(body.categoria) && p.imagen == TrimOrNull(body.imagen)
    ensures p.disponible == if body.disponible.Some? then body.disponible.value else keep
  {
    Producto(id, Trim(body.nombre.value), TrimOrNull(body.descripcion), body.precio.value,
             TrimOrNull(body.categoria), TrimOrNull(body.imagen),
             if body.disponible.Some? then body.disponible.value else keep)
  }

  /** Whatever passes validation is a row the schema accepts. */
  lemma AcceptedBodyIsValidRow(id: int, body: ProductoBody, dbError: Reply, keep: bool)
    requires dbError.status == 500
    requires ValidarProducto(body, dbError).None?
    ensures ProductoValid(FromBody(id, body, keep))
  {
  }

  /** A numeric zero price is refused as missing, not accepted as free. */
  lemma ZeroPriceIsMissing(body: ProductoBody, dbError: Reply)
    requires dbError.status == 500
    requires body.precio == Some(0)
    ensures ValidarProducto(body, dbError) == Some(MissingFields)
  {
  }

  /** A name of spaces only passes the falsy check but fails the schema validator. */
  lemma BlankNameFailsValidation(body: ProductoBody, dbError: Reply)
    requires dbError.status == 500
    requires Present(body.nombre) && body.precio.Some? && body.precio.value > 0
    requires forall i :: 0 <= i < |body.nombre.value| ==> IsSpace(body.nombre.value[i])
    ensures ValidarProducto(body, dbError) == Some(ValidationFailed)
  {
  }

  /** The text of the delete confirmation: `Producto "<nombre>" eliminado exitosamente`. */
  function DeletedMessage(nombre: string): string {
    "Producto \"" + nombre + "\" eliminado exitosamente"
  }

  /** The text of the availability confirmation. */
  function AvailabilityMessage(disponible: Option<bool>): (m: string)
    ensures m == (if disponible == Some(true) then "Producto habilitado exitosamente"
                  else "Producto deshabilitado exitosamente")
  {
    "Producto " + (if disponible == Some(true) then "habilitado" else "deshabilitado") + " exitosamente"
  }

  /** The `productos` table, keyed by autoincrement id. */
  class ProductTable {
    var rows: map<int, Producto>
    var nextId: int

    /** Keys are ids below the next autoincrement value, and every row satisfies the schema. */
    ghost predicate Valid()
      reads this
    {
      && nextId >= 1
      && (forall k :: k in rows ==> rows[k].id == k && 1 <= k < nextId && ProductoValid(rows[k]))
    }

    constructor ()
      ensures Valid() && rows == map[] && nextId == 1
    {
      rows := map[];
      nextId := 1;
    }

    /**
     * `obtenerProductos`: every row exactly once, newest first. Ids grow with
     * creation time, so newest first is descending id.
     */
    method ObtenerProductos() returns (r: seq<Producto>)
      requires Valid()
      ensures forall i, j :: 0 <= i < j < |r| ==> r[i].id > r[j].id
      ensures forall i :: 0 <= i < |r| ==> r[i].id in rows && rows[r[i].id] == r[i]
      ensures forall k :: k in rows ==> exists i :: 0 <= i < |r| && r[i].id == k
    {
      r := [];
      var i := nextId - 1;
      while i >= 1
        invariant 0 <= i < nextId
        invariant forall a, b :: 0 <= a < b < |r| ==> r[a].id > r[b].id
        invariant forall a :: 0 <= a < |r| ==> i < r[a].id && r[a].id in rows && rows[r[a].id] == r[a]
        invariant forall k :: k in rows && k > i ==> exists a :: 0 <= a < |r| && r[a].id == k
        decreases i
      {
        if i in rows {
          ghost var prev := r;
          r := r + [rows[i]];
          forall k | k in rows && k > i - 1
            ensures exists a :: 0 <= a < |r| && r[a].id == k
          {
            if k == i {
              assert r[|r| - 1].id == k;
            } else {
              var a :| 0 <= a < |prev| && prev[a].id == k;
              assert r[a] == prev[a];
            }
          }
        }
        i := i - 1;
      }
    }

    /** `obtenerProductoPorId`: the row under `id`, or 404. */
    function ObtenerProductoPorId(id: int): (r: Response<Producto>)
      reads this
      ensures r.Success? <==> id in rows
      ensures r.Success? ==> r.status == 200 && r.body == rows[id]
      ensures r.Failure? ==> r.reply == NotFound
    {
      if id in rows then Success(200, rows[id]) else Failure(NotFound)
    }

    /** `crearProducto`: a rejected body changes nothing; an accepted one adds exactly one row. */
    method CrearProducto(body: ProductoBody) returns (r: Response<Saved>)
      requires Valid()
      modifies this`rows, this`nextId
      ensures Valid()
      ensures var check := ValidarProducto(body, CreateFailed);
        && (check.Some? ==> r == Failure(check.value) && rows == old(rows) && nextId == old(nextId))
        && (check.None? ==>
              var p := FromBody(old(nextId), body, true);
              && old(nextId) !in old(rows)
              && rows == old(rows)[old(nextId) := p] && nextId == old(nextId) + 1
              && r == Success(201, Saved("Producto creado exitosamente", p)))
    {
      var check := ValidarProducto(body, CreateFailed);
      if check.Some? {
        return Failure(check.value);
      }
      AcceptedBodyIsValidRow(nextId, body, CreateFailed, true);
      var p := FromBody(nextId, body, true);
      rows := rows[nextId := p];
      nextId := nextId + 1;
      r := Success(201, Saved("Producto creado exitosamente", p));
    }

    /**
     * `actualizarProducto`: 404 before any validation; on success every field is
     * overwritten from the body except an absent `disponible`, which is kept.
     */
    method ActualizarProducto(id: int, body: ProductoBody) returns (r: Response<Saved>)
      requires Valid()
      modifies this`rows
      ensures Valid()
      ensures id !in old(rows) ==> r == Failure(NotFound) && rows == old(rows)
      ensures id in old(rows) ==>
        var check := ValidarProducto(body, UpdateFailed);
        && (check.Some? ==> r == Failure(check.value) && rows == old(rows))
        && (check.None? ==>
              var p := FromBody(id, body, old(rows)[id].disponible);
              && rows == old(rows)[id := p]
              && r == Success(200, Saved("Producto actualizado exitosamente", p)))
    {
      if id !in rows {
        return Failure(NotFound);
      }
      var check := ValidarProducto(body, UpdateFailed);
      if check.Some? {
        return Failure(check.value);
      }
      AcceptedBodyIsValidRow(id, body, UpdateFailed, rows[id].disponible);
      var p := FromBody(id, body, rows[id].disponible);
      rows := rows[id := p];
      r := Success(200, Saved("Producto actualizado exitosamente", p));
    }

    /** `eliminarProducto`: 404 and no change, or exactly that row removed and its name reported. */
    method EliminarProducto(id: int) returns (r: Response<Deleted>)
      requires Valid()
      modifies this`rows
      ensures Valid()
      ensures id !in old(rows) ==> r == Failure(NotFound) && rows == old(rows)
      ensures id in old(rows) ==>
        && rows == old(rows) - {id}
        && r == Success(200, Deleted(DeletedMessage(old(rows)[id].nombre), id))
    {
      if id !in rows {
        return Failure(NotFound);
      }
      var nombre := rows[id].nombre;
      rows := rows - {id};
      r := Success(200, Deleted(DeletedMessage(nombre), id));
    }

    /**
     * `cambiarDisponibilidad`: 404, or only that row's `disponible` changes; an
     * absent value is skipped by `update` and reported as "deshabilitado".
     */
    method CambiarDisponibilidad(id: int, disponible: Option<bool>) returns (r: Response<Saved>)
      requires Valid()
      modifies this`rows
      ensures Valid()
      ensures id !in old(rows) ==> r == Failure(NotFound) && rows == old(rows)
      ensures id in old(rows) ==>
        var p := if disponible.Some? then old(rows)[id].(disponible := disponible.value) else old(rows)[id];
        && rows == old(rows)[id := p]
        && r == Success(200, Saved(AvailabilityMessage(disponible), p))
    {
      if id !in rows {
        return Failure(NotFound);
      }
      var p := rows[id];
      if disponible.Some? {
        p := p.(disponible := disponible.value);
      }
      rows := rows[id := p];
      r := Success(200, Saved(AvailabilityMessage(disponible), p));
    }
  }
}
