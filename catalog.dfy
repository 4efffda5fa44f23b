/** The records the pages hold: companies, products and their prices. */
module Catalog {
  import opened Outcomes

  /**
   * A company record. `id` is None when the record has no `id` property at all;
   * the listing adds one, the create dialog's draft has none.
   */
  datatype Empresa = Empresa(id: Option<string>, nit: string, nombre: string, direccion: string, telefono: string)

  /**
   * The three prices of a product, as the text of the values they hold
   * (a number the server sent, or what was typed in the number field).
   */
  datatype Prices = Prices(cop: string, usd: string, eur: string)

  /** A product record; also the shape of the product form. */
  datatype Producto = Producto(
    id: Option<string>,
    codigo: string,
    nombre: string,
    caracteristicas: string,
    empresaNIT: string,
    precios: Prices)
}
