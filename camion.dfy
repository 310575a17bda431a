/**
 * The truck registry: lookup, creation and update guarded by a non-empty
 * plate and a non-zero type, and deletion by id.
 */
module ControladorCamion {
  import opened Wrappers
  import opened Modelo
  import opened Almacen

  /** The guards of CreateCamion and UpdateCamion, plate first. */
  function ValidarCamion(c: Camion): (err: Option<ErrorRegistro>)
    ensures err.None? <==> c.patente != "" && c.tipoId != 0
    ensures err == Some(PatenteVacia) <==> c.patente == ""
    ensures err == Some(TipoObligatorio) <==> c.patente != "" && c.tipoId == 0
  {
    if c.patente == "" then Some(PatenteVacia)
    else if c.tipoId == 0 then Some(TipoObligatorio)
    else None
  }

  /** GetCamionByID: the stored truck, or not found. */
  function GetCamionByID(db: BaseDatos, id: nat): (r: Result<Camion, ErrorRegistro>)
    reads db
    ensures r.Success? <==> id in db.camiones
    ensures r.Success? ==> r.value == db.camiones[id]
    ensures r.Failure? ==> r.error == NoEncontrado
  {
    if id in db.camiones then Success(db.camiones[id]) else Failure(NoEncontrado)
  }

  /** The row UpdateCamion writes: plate, type and active flag replaced, the id kept. */
  function CamionActualizado(existente: Camion, actualizado: Camion): (r: Camion)
    ensures r.id == existente.id
    ensures r.patente == actualizado.patente && r.tipoId == actualizado.tipoId && r.activo == actualizado.activo
  {
    existente.(patente := actualizado.patente, tipoId := actualizado.tipoId, activo := actualizado.activo)
  }

  /** CreateCamion: rejects an empty plate, then a zero type; otherwise inserts with the next id. */
  method CreateCamion(db: BaseDatos, nuevo: Camion) returns (r: Result<Camion, ErrorRegistro>)
    requires db.Valid()
    modifies db`camiones, db`siguienteCamionId
    ensures db.Valid()
    ensures ValidarCamion(nuevo).Some? ==>
      r == Failure(ValidarCamion(nuevo).value) && db.camiones == old(db.camiones) && db.siguienteCamionId == old(db.siguienteCamionId)
    ensures ValidarCamion(nuevo).None? ==>
      var id := old(db.siguienteCamionId);
      && r == Success(nuevo.(id := id))
      && db.camiones == old(db.camiones)[id := nuevo.(id := id)]
      && db.siguienteCamionId == id + 1
  {
    var err := ValidarCamion(nuevo);
    if err.Some? {
      return Failure(err.value);
    }
    var creado := nuevo.(id := db.siguienteCamionId);
    db.camiones := db.camiones[creado.id := creado];
    db.siguienteCamionId := db.siguienteCamionId + 1;
    r := Success(creado);
  }

  /**
   * UpdateCamion: an unknown id fails before the new values are looked at;
   * then the plate and type guards; then plate, type and active flag are written.
   */
  method UpdateCamion(db: BaseDatos, id: nat, actualizado: Camion) returns (r: Result<Camion, ErrorRegistro>)
    requires db.Valid()
    modifies db`camiones
    ensures db.Valid()
    ensures id !in old(db.camiones) ==> r == Failure(CamionNoEncontrado)
    ensures id in old(db.camiones) && ValidarCamion(actualizado).Some? ==> r == Failure(ValidarCamion(actualizado).value)
    ensures r.Failure? ==> db.camiones == old(db.camiones)
    ensures id in old(db.camiones) && ValidarCamion(actualizado).None? ==>
      var nuevo := CamionActualizado(old(db.camiones)[id], actualizado);
      r == Success(nuevo) && db.camiones == old(db.camiones)[id := nuevo]
  {
    var existente := GetCamionByID(db, id);
    if existente.Failure? {
      return Failure(CamionNoEncontrado);
    }
    var err := ValidarCamion(actualizado);
    if err.Some? {
      return Failure(err.value);
    }
    var nuevo := CamionActualizado(existente.value, actualizado);
    db.camiones := db.camiones[id := nuevo];
    r := Success(nuevo);
  }

  /** DeleteCamion: removes that id, if present, and nothing else. */
  method DeleteCamion(db: BaseDatos, id: nat)
    requires db.Valid()
    modifies db`camiones
    ensures db.Valid()
    ensures db.camiones == old(db.camiones) - {id}
  {
    db.camiones := db.camiones - {id};
  }
}
