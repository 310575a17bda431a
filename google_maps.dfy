/**
 * The pure parts of the Google Maps service: the address string sent to the
 * Distance Matrix API, the address check, and which decoded responses are
 * accepted and what is taken from them.
 */
module GoogleMaps {
  import opened Wrappers

  /** A text/value pair of a Distance Matrix element. */
  datatype Medida = Medida(texto: string, valor: int)

  datatype Elemento = Elemento(distancia: Medida, duracion: Medida, estado: string)

  datatype Fila = Fila(elementos: seq<Elemento>)

  /** A decoded Distance Matrix response. */
  datatype RespuestaMatriz = RespuestaMatriz(filas: seq<Fila>, estado: string)

  datatype DistanciaCalculada = DistanciaCalculada(distancia: string, duracion: string, rutaOptimizada: bool)

  datatype ErrorMaps =
    | ErrorApi(estado: string)        // error en API de Google Maps: <status>
    | SinResultados                   // no se encontraron resultados de distancia
    | ErrorElemento(estado: string)   // error al calcular distancia: <status>
    | DireccionVacia                  // la dirección no puede estar vacía

  const ESTADO_OK: string := "OK"
  const SEPARADOR: string := ", "

  /**
   * FormatearDireccionCompleta: address, commune and city joined by ", " when
   * both are present; address and city when only the city is; the address
   * alone otherwise, so a commune without a city is dropped.
   */
  function FormatearDireccionCompleta(direccion: string, comuna: string, ciudad: string): (r: string)
    ensures |direccion| <= |r| && r[..|direccion|] == direccion
    ensures ciudad != "" ==> |ciudad| <= |r| && r[|r| - |ciudad|..] == ciudad
    ensures ciudad != "" ==> |direccion| + |SEPARADOR| <= |r| && r[|direccion|..|direccion| + |SEPARADOR|] == SEPARADOR
    ensures |r| == |direccion|
                   + (if ciudad != "" then |SEPARADOR| + |ciudad| else 0)
                   + (if ciudad != "" && comuna != "" then |SEPARADOR| + |comuna| else 0)
  {
    if comuna != "" && ciudad != "" then direccion + SEPARADOR + comuna + SEPARADOR + ciudad
    else if ciudad != "" then direccion + SEPARADOR + ciudad
    else direccion
  }

  /** The formatted address is the bare address exactly when there is no city. */
  lemma FormatoSinCiudad(direccion: string, comuna: string, ciudad: string)
    ensures FormatearDireccionCompleta(direccion, comuna, ciudad) == direccion <==> ciudad == ""
  {
    if ciudad != "" {
      assert |FormatearDireccionCompleta(direccion, comuna, ciudad)| > |direccion|;
    }
  }

  /** With both parts present the commune sits between the two separators. */
  lemma FormatoCompleto(direccion: string, comuna: string, ciudad: string)
    requires comuna != "" && ciudad != ""
    ensures var r := FormatearDireccionCompleta(direccion, comuna, ciudad);
      var n := |direccion| + |SEPARADOR|;
      && r[|direccion|..n] == SEPARADOR
      && r[n..n + |comuna|] == comuna
      && r[n + |comuna|..n + |comuna| + |SEPARADOR|] == SEPARADOR
  {
    var r := FormatearDireccionCompleta(direccion, comuna, ciudad);
    assert r == direccion + SEPARADOR + comuna + SEPARADOR + ciudad;
  }

  /** ValidarDireccion: only the empty address is rejected; it never answers false without an error. */
  function ValidarDireccion(direccion: string): (r: Result<bool, ErrorMaps>)
    ensures r.Success? <==> direccion != ""
    ensures r.Success? ==> r.value
    ensures r.Failure? ==> r.error == DireccionVacia
  {
    if direccion == "" then Failure(DireccionVacia) else Success(true)
  }

  /**
   * The checks CalcularDistancia applies to a decoded response: the global
   * status, then the presence of a first element, then its status.
   */
  function AceptarRespuesta(respuesta: RespuestaMatriz): (r: Result<DistanciaCalculada, ErrorMaps>)
    ensures r.Success? <==>
      && respuesta.estado == ESTADO_OK
      && |respuesta.filas| > 0 && |respuesta.filas[0].elementos| > 0
      && respuesta.filas[0].elementos[0].estado == ESTADO_OK
    ensures r.Success? ==>
      var e := respuesta.filas[0].elementos[0];
      r.value.distancia == e.distancia.texto && r.value.duracion == e.duracion.texto && r.value.rutaOptimizada
    ensures respuesta.estado != ESTADO_OK ==> r == Failure(ErrorApi(respuesta.estado))
    ensures respuesta.estado == ESTADO_OK && (|respuesta.filas| == 0 || |respuesta.filas[0].elementos| == 0) ==>
      r == Failure(SinResultados)
    ensures && respuesta.estado == ESTADO_OK
            && |respuesta.filas| > 0 && |respuesta.filas[0].elementos| > 0
            && respuesta.filas[0].elementos[0].estado != ESTADO_OK
            ==> r == Failure(ErrorElemento(respuesta.filas[0].elementos[0].estado))
  {
    if respuesta.estado != ESTADO_OK then Failure(ErrorApi(respuesta.estado))
    else if |respuesta.filas| == 0 || |respuesta.filas[0].elementos| == 0 then Failure(SinResultados)
    else
      var e := respuesta.filas[0].elementos[0];
      if e.estado != ESTADO_OK then Failure(ErrorElemento(e.estado))
      else Success(DistanciaCalculada(e.distancia.texto, e.duracion.texto, true))
  }

  /** Only the first element of the first row is read: the rest of the matrix does not affect the outcome. */
  lemma SoloPrimerElemento(respuesta: RespuestaMatriz)
    requires |respuesta.filas| > 0 && |respuesta.filas[0].elementos| > 0
    ensures AceptarRespuesta(respuesta)
         == AceptarRespuesta(RespuestaMatriz([Fila([respuesta.filas[0].elementos[0]])], respuesta.estado))
  {
  }
}
