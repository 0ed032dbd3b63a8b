/** A user's loyalty points: the current balance and the total ever earned. */
module Puntos {

  class Puntos {
    var saldo: nat
    var totalAcumulado: nat

    /** The balance never exceeds what was ever earned. */
    ghost predicate Valid()
      reads this
    {
      saldo <= totalAcumulado
    }

    /** A new record: both counters default to 0. */
    constructor ()
      ensures Valid() && saldo == 0 && totalAcumulado == 0
    {
      saldo := 0;
      totalAcumulado := 0;
    }

    /** `agregar_puntos`: both counters grow by `cantidad`. */
    method AgregarPuntos(cantidad: nat)
      requires Valid()
      modifies this
      ensures Valid()
      ensures saldo == old(saldo) + cantidad
      ensures totalAcumulado == old(totalAcumulado) + cantidad
    {
      saldo := saldo + cantidad;
      totalAcumulado := totalAcumulado + cantidad;
    }

    /** `restar_puntos`: spends `cantidad` when the balance covers it, and says whether it did. */
    method RestarPuntos(cantidad: nat) returns (ok: bool)
      requires Valid()
      modifies this
      ensures Valid()
      ensures ok <==> old(saldo) >= cantidad
      ensures ok ==> saldo == old(saldo) - cantidad
      ensures !ok ==> saldo == old(saldo)
      ensures totalAcumulado == old(totalAcumulado)
    {
      if saldo >= cantidad {
        saldo := saldo - cantidad;
        ok := true;
      } else {
        ok := false;
      }
    }
  }
}
