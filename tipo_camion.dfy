/**
 * The truck-type registry: lookup, creation and update guarded by positive
 * capacities, and deletion by id.
 */
module ControladorTipoCamion {
  import opened Wrappers
  import opened Modelo
  import opened Almacen

  /** The capacity guard shared by CreateTipoCamion and UpdateTipoCamion. */
  function ValidarCapacidad(t: TipoCamion): (err: Option<ErrorRegistro>)
    ensures err.None? <==> t.volumen > 0.0 && t.pesoMaximo > 0.0
    ensures err.Some? ==> err.value == CapacidadNoPositiva
  {
    if t.volumen <= 0.0 || t.pesoMaximo <= 0.0 then Some(CapacidadNoPositiva) else None
  }

  /** GetTipoCamionByID: the stored type, or not found. */
  function GetTipoCamionByID(db: BaseDatos, id: nat): (r: Result<TipoCamion, ErrorRegistro>)
    reads db
    ensures r.Success? <==> id in db.tiposCamion
    ensures r.Success? ==> r.value == db.tiposCamion[id]
    ensures r.Failure? ==> r.error == NoEncontrado
  {
    if id in db.tiposCamion then Success(db.tiposCamion[id]) else Failure(NoEncontrado)
  }

  /** The row UpdateTipoCamion writes: the stored row with only the two capacities replaced. */
  function TipoActualizado(existente: TipoCamion, nuevo: TipoCamion): (r: TipoCamion)
    ensures r.id == existente.id
    ensures r.volumen == nuevo.volumen && r.pesoMaximo == nuevo.pesoMaximo
  {
    existente.(volumen := nuevo.volumen, pesoMaximo := nuevo.pesoMaximo)
  }

  /** CreateTipoCamion: rejects non-positive capacities, otherwise inserts with the next id. */
  method CreateTipoCamion(db: BaseDatos, nuevo: TipoCamion) returns (r: Result<TipoCamion, ErrorRegistro>)
    requires db.Valid()
    modifies db`tiposCamion, db`siguienteTipoId
    ensures db.Valid()
    ensures ValidarCapacidad(nuevo).Some? ==>
      r == Failure(CapacidadNoPositiva) && db.tiposCamion == old(db.tiposCamion) && db.siguienteTipoId == old(db.siguienteTipoId)
    ensures ValidarCapacidad(nuevo).None? ==>
      var id := old(db.siguienteTipoId);
      && r == Success(nuevo.(id := id))
      && db.tiposCamion == old(db.tiposCamion)[id := nuevo.(id := id)]
      && db.siguienteTipoId == id + 1
  {
    var err := ValidarCapacidad(nuevo);
    if err.Some? {
      return Failure(err.value);
    }
    var creado := nuevo.(id := db.siguienteTipoId);
    db.tiposCamion := db.tiposCamion[creado.id := creado];
    db.siguienteTipoId := db.siguienteTipoId + 1;
    r := Success(creado);
  }

  /**
   * UpdateTipoCamion: an unknown id fails before the new values are looked at;
   * then the capacity guard; then only the two capacities are written.
   */
  method UpdateTipoCamion(db: BaseDatos, id: nat, nuevo: TipoCamion) returns (r: Result<TipoCamion, ErrorRegistro>)
    requires db.Valid()
    modifies db`tiposCamion
    ensures db.Valid()
    ensures id !in old(db.tiposCamion) ==> r == Failure(TipoCamionNoEncontrado)
    ensures id in old(db.tiposCamion) && ValidarCapacidad(nuevo).Some? ==> r == Failure(CapacidadNoPositiva)
    ensures r.Failure? ==> db.tiposCamion == old(db.tiposCamion)
    ensures id in old(db.tiposCamion) && ValidarCapacidad(nuevo).None? ==>
      var actualizado := TipoActualizado(old(db.tiposCamion)[id], nuevo);
      r == Success(actualizado) && db.tiposCamion == old(db.tiposCamion)[id := actualizado]
  {
    var existente := GetTipoCamionByID(db, id);
    if existente.Failure? {
      return Failure(TipoCamionNoEncontrado);
    }
    var err := ValidarCapacidad(nuevo);
    if err.Some? {
      return Failure(err.value);
    }
    var actualizado := TipoActualizado(existente.value, nuevo);
    db.tiposCamion := db.tiposCamion[id := actualizado];
    r := Success(actualizado);
  }

  /** DeleteTipoCamion: removes that id, if present, and nothing else. */
  method DeleteTipoCamion(db: BaseDatos, id: nat)
    requires db.Valid()
    modifies db`tiposCamion
    ensures db.Valid()
    ensures db.tiposCamion == old(db.tiposCamion) - {id}
  {
    db.tiposCamion := db.tiposCamion - {id};
  }
}
