/** The product document: what the product schema stores and how it fills
    in a new document. */
module ProductModel {
  import opened Common

  datatype Product = Product(
    nombre: string,
    descripcion: Option<string>,
    precioUnitario: int,  // in cents
    stock: int,
    categoria: Option<CategoryId>)

  /** The product collection, by document id. */
  type Catalog = map<ProductId, Product>

  /** A line's product reference names a product that is in the catalog. */
  predicate Known(c: Catalog, producto: Option<ProductId>) {
    producto.Some? && producto.value in c
  }

  /** A new product document as the schema validates and defaults it:
      `nombre` (a non-empty string) and `precioUnitario` are required,
      `stock` defaults to 0, `descripcion` and `categoria` are optional. */
  function NewProduct(
    nombre: Option<string>,
    descripcion: Option<string>,
    precioUnitario: Option<int>,
    stock: Option<int>,
    categoria: Option<CategoryId>): (r: Option<Product>)
    ensures r.Some? <==> nombre.Some? && nombre.value != "" && precioUnitario.Some?
    ensures r.Some? ==> r.value.nombre == nombre.value && r.value.precioUnitario == precioUnitario.value
    ensures r.Some? ==> r.value.stock == (if stock.Some? then stock.value else 0)
    ensures r.Some? ==> r.value.descripcion == descripcion && r.value.categoria == categoria
  {
    if nombre.None? || nombre.value == "" || precioUnitario.None? then None
    else Some(Product(nombre.value, descripcion, precioUnitario.value, stock.GetOr(0), categoria))
  }
}
