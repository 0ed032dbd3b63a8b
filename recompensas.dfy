/** Rewards bought with loyalty points, and the redemptions (`Canje`) recorded for them. */
module Recompensas {
  import opened Puntos

  class Recompensa {
    var id: int
    var puntosRequeridos: nat
    var activa: bool
    var stock: nat

    constructor (id: int, puntosRequeridos: nat, activa: bool, stock: nat)
      ensures this.id == id && this.puntosRequeridos == puntosRequeridos
      ensures this.activa == activa && this.stock == stock
    {
      this.id := id;
      this.puntosRequeridos := puntosRequeridos;
      this.activa := activa;
      this.stock := stock;
    }
  }

  datatype Canje = Canje(usuario: int, recompensa: int, puntosUsados: nat)

  /** The `Canje` table. */
  class CanjeTable {
    var rows: seq<Canje>

    constructor ()
      ensures rows == []
    {
      rows := [];
    }

    method Insert(c: Canje)
      modifies this
      ensures rows == old(rows) + [c]
    {
      rows := rows + [c];
    }
  }

  /** `RecompensaList.get_queryset`: only active rewards, in stored order. */
  function ActiveRewards(rs: seq<Recompensa>): (r: seq<Recompensa>)
    reads rs
    ensures forall k :: 0 <= k < |r| ==> r[k] in rs && r[k].activa
    ensures forall x :: x in rs && x.activa ==> x in r
    ensures |r| <= |rs|
  {
    if rs == [] then []
    else ActiveRewards(rs[..|rs| - 1]) + (if rs[|rs| - 1].activa then [rs[|rs| - 1]] else [])
  }

  /** `Recompensa.objects.get(id=..., activa=True, stock__gt=0)` on the looked-up reward. */
  predicate Redeemable(r: Recompensa?)
    reads r
  {
    r != null && r.activa && r.stock > 0
  }

  /**
   * `CanjearRecompensa.post`: 404 when the reward is missing, inactive or out of
   * stock, or when the user has no points record; 400 when the balance is short;
   * otherwise the balance pays the reward's price, the stock drops by one and one
   * redemption is recorded. Every refusal leaves everything unchanged.
   */
  method CanjearRecompensa(user: int, recompensa: Recompensa?, puntos: Puntos?, canjes: CanjeTable)
    returns (status: int)
    requires puntos != null ==> puntos.Valid()
    modifies recompensa, puntos, canjes
    ensures puntos != null ==> puntos.Valid()
    ensures !old(Redeemable(recompensa)) ==> status == 404
    ensures old(Redeemable(recompensa)) && puntos == null ==> status == 404
    ensures old(Redeemable(recompensa)) && puntos != null ==>
      (status == 200 <==> old(puntos.saldo) >= recompensa.puntosRequeridos)
    ensures status == 200 || status == 400 || status == 404
    ensures status != 200 ==>
      canjes.rows == old(canjes.rows)
      && (recompensa != null ==> recompensa.stock == old(recompensa.stock))
      && (puntos != null ==> puntos.saldo == old(puntos.saldo) && puntos.totalAcumulado == old(puntos.totalAcumulado))
    ensures status == 200 ==>
      recompensa != null && puntos != null
      && puntos.saldo == old(puntos.saldo) - recompensa.puntosRequeridos
      && puntos.totalAcumulado == old(puntos.totalAcumulado)
      && recompensa.stock == old(recompensa.stock) - 1
      && canjes.rows == old(canjes.rows) + [Canje(user, recompensa.id, recompensa.puntosRequeridos)]
    ensures recompensa != null ==>
      recompensa.puntosRequeridos == old(recompensa.puntosRequeridos) && recompensa.activa == old(recompensa.activa)
      && recompensa.id == old(recompensa.id)
  {
    if !Redeemable(recompensa) {
      return 404;
    }
    if puntos == null {
      return 404;
    }
    if puntos.saldo >= recompensa.puntosRequeridos {
      var ok := puntos.RestarPuntos(recompensa.puntosRequeridos);
      recompensa.stock := recompensa.stock - 1;
      canjes.Insert(Canje(user, recompensa.id, recompensa.puntosRequeridos));
      return 200;
    } else {
      return 400;
    }
  }
}
