/**
 * The records the dispatch engine reads and writes, with the shapes the
 * dispatch, truck and truck-type controllers actually use.
 */
module Modelo {

  /** Linear dimensions are in centimetres; dividing their product by this gives cubic metres. */
  const ESCALA_VOLUMEN: real := 1000000.0

  /** Instants are whole seconds; one day is this many of them. */
  type Instante = int
  const DIA: int := 86400

  const ESTADO_PENDIENTE: string := "pendiente"
  const ESTADO_APROBADO: string := "aprobado"

  /** A catalogue product as the planner reads it: SKU, unit weight and dimensions. */
  datatype Producto = Producto(sku: string, peso: real, largo: real, ancho: real, alto: real)

  /** A quotation line with its product already joined in. */
  datatype ItemCotizacion = ItemCotizacion(cotizacionId: nat, producto: Producto, sucursalId: nat, cantidad: int)

  /** The quotation header, reduced to the client RUT the planner reads. */
  datatype Cotizacion = Cotizacion(id: nat, rutCliente: string)

  /** A client delivery address. */
  datatype DirCliente = DirCliente(id: nat, rutCliente: string, direccion: string, comuna: string, ciudad: string)

  /** One physical piece of a product, the indivisible packing quantum. */
  datatype Unidad = Unidad(sku: string, peso: real, volumen: real, sucursalId: nat)

  datatype TipoCamion = TipoCamion(id: nat, volumen: real, pesoMaximo: real)

  datatype Camion = Camion(id: nat, patente: string, tipoId: nat, activo: bool)

  datatype Despacho = Despacho(
    id: nat,
    cotizacionId: nat,
    camionId: nat,
    origen: nat,
    destino: nat,
    fechaDespacho: Instante,
    valorDespacho: real,
    estado: string)

  /** A row of the dispatch manifest (productos_despacho). */
  datatype LineaDespacho = LineaDespacho(despachoId: nat, productoId: string, cantidad: int)

  /** Key of a branch stock row: (producto_id, sucursal_id). */
  datatype ClaveStock = ClaveStock(productoId: string, sucursalId: nat)

  /** The failures of the dispatch controller, one per error return of the source. */
  datatype ErrorDespacho =
    | FechaEnElPasado               // la fecha de despacho no puede ser en el pasado
    | SinStock(productoId: string)  // no se encontró stock suficiente para el producto ...
    | SinProductos                  // no hay productos en la cotización
    | SinTiposCamion                // no hay tipos de camión disponibles
    | SinDestino                    // the client has no delivery address (record not found)
    | SinTipoParaGrupo              // no hay tipo de camión disponible para un grupo de productos
    | SinCamionDelTipo(tipoId: nat) // no hay camiones disponibles del tipo %d
    | GrupoVacio                    // index out of range on grupo[0]
    | SinDespachos                  // no se encontró despacho para la cotización especificada

  /** The failures of the truck and truck-type registries. */
  datatype ErrorRegistro =
    | NoEncontrado                  // record not found
    | TipoCamionNoEncontrado        // tipo de camión no encontrado
    | CapacidadNoPositiva           // volumen y peso máximo deben ser mayores a cero
    | CamionNoEncontrado            // camión no encontrado
    | PatenteVacia                  // la patente no puede estar vacía
    | TipoObligatorio               // el tipo de camión es obligatorio
}
