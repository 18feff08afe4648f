/**
 * The shipping-company contract record ("约号") that the table lists, the
 * editor modal fills in and the filter engine tests.
 */
module Appointments {
  import opened Options

  /**
   * One contract. `null` in the record becomes `None`; an absent `isSelected`
   * reads as `false` everywhere the table tests it, so it is a plain flag here.
   * The validity bounds are the `YYYY-MM-DD` texts of the date inputs, `""` when unset.
   */
  datatype Appointment = Appointment(
    id: string,
    line: string,
    isActivated: bool,
    isSelected: bool,
    shippingCompany: string,
    priceNature: string,
    isNAC: Option<bool>,
    nac: string,
    applicableProducts: Option<string>,
    customProduct: string,
    mqc: string,
    cabinProtection: Option<string>,
    cabinProtectionValue: string,
    cabinProtectionUnit: string,
    validFrom: string,
    validTo: string)

  /** No two different records share an `id`: the table matches its two lists by `id`. */
  predicate IdsIdentify(s: seq<Appointment>) {
    forall x, y :: x in s && y in s && x.id == y.id ==> x == y
  }

  /** The ids of the records of `s`. */
  function Ids(s: seq<Appointment>): (r: set<string>)
    ensures forall x :: x in s ==> x.id in r
    ensures forall k :: k in r ==> exists x :: x in s && x.id == k
  {
    set x | x in s :: x.id
  }
}
