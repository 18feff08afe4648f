/**
 * The filter panel: a criteria record of (value, operator) pairs that the user
 * edits field by field, submits to the table, or resets.
 */
module FilterPanel {

  /**
   * The criteria keys. The first sixteen are the value fields the panel
   * declares; the rest are keys the table's filter reads although the panel
   * never writes them (absent reads as `""`). `ValidDate` carries only an
   * operator (`validDateOp`).
   */
  datatype Field =
    | AppointmentNumber | InquirySource | InquiryPerson | HeadFreightStatus
    | MainFreightStatus | TailFreightStatus | ContainerInfo | CargoReadyTime
    | CargoNature | ShippingCompany | RouteType | LoadingPort
    | DischargePort | CargoName | Remarks | CreateTime
    | Line | PriceNature | IsNAC | IsActivated | ValidFrom | ValidTo | ValidDate

  const PanelFields: set<Field> := {
    AppointmentNumber, InquirySource, InquiryPerson, HeadFreightStatus,
    MainFreightStatus, TailFreightStatus, ContainerInfo, CargoReadyTime,
    CargoNature, ShippingCompany, RouteType, LoadingPort,
    DischargePort, CargoName, Remarks, CreateTime
  }

  /** The operators offered by the panel's selects, and the date operator the table understands. */
  const OpEquals := "等于"
  const OpNotEquals := "不等于"
  const OpContains := "包含"
  const OpNotContains := "不包含"
  const OpRange := "范围"

  /** `FilterCriteria`: a value and an operator per key; a missing key is `undefined`, read as `""`. */
  datatype Criteria = Criteria(values: map<Field, string>, ops: map<Field, string>)

  function Value(c: Criteria, f: Field): string {
    if f in c.values then c.values[f] else ""
  }

  function Op(c: Criteria, f: Field): string {
    if f in c.ops then c.ops[f] else ""
  }

  /** Criteria that hold only keys the panel declares. */
  predicate PanelOnly(c: Criteria) {
    c.values.Keys <= PanelFields && c.ops.Keys <= PanelFields
  }

  /** The panel's starting record, which `handleReset` writes again: every value empty, every operator `等于`. */
  function InitialCriteria(): (c: Criteria)
    ensures forall f :: f in PanelFields ==> Value(c, f) == "" && Op(c, f) == OpEquals
    ensures forall f :: f !in PanelFields ==> Value(c, f) == "" && Op(c, f) == ""
    ensures PanelOnly(c)
  {
    Criteria(map f | f in PanelFields :: "", map f | f in PanelFields :: OpEquals)
  }

  /** `{...prev, [name]: value}` for a value field. */
  function WithValue(c: Criteria, f: Field, v: string): (r: Criteria)
    ensures Value(r, f) == v
    ensures forall g :: g != f ==> Value(r, g) == Value(c, g)
    ensures forall g :: Op(r, g) == Op(c, g)
  {
    c.(values := c.values[f := v])
  }

  /** `{...prev, [name]: value}` for an operator field. */
  function WithOp(c: Criteria, f: Field, op: string): (r: Criteria)
    ensures Op(r, f) == op
    ensures forall g :: g != f ==> Op(r, g) == Op(c, g)
    ensures forall g :: Value(r, g) == Value(c, g)
  {
    c.(ops := c.ops[f := op])
  }

  /** The panel component's `filters` state and its handlers. */
  class Panel {
    var filters: Criteria

    ghost predicate Valid()
      reads this
    {
      PanelOnly(filters)
    }

    constructor()
      ensures filters == InitialCriteria() && Valid()
    {
      filters := InitialCriteria();
    }

    /** `handleChange`: only the named value changes. */
    method Change(f: Field, v: string)
      requires f in PanelFields && Valid()
      modifies this
      ensures filters == WithValue(old(filters), f, v) && Valid()
    {
      filters := WithValue(filters, f, v);
    }

    /** `handleOperatorChange`: only the named operator changes. */
    method OperatorChange(f: Field, op: string)
      requires f in PanelFields && Valid()
      modifies this
      ensures filters == WithOp(old(filters), f, op) && Valid()
    {
      filters := WithOp(filters, f, op);
    }

    /** `handleSubmit`: the current criteria go to the table as they are. */
    method Submit() returns (emitted: Criteria)
      ensures emitted == filters
    {
      emitted := filters;
    }

    /** `handleReset`: the starting criteria are stored and sent to the table. */
    method Reset() returns (emitted: Criteria)
      modifies this
      ensures filters == InitialCriteria() && emitted == filters && Valid()
    {
      filters := InitialCriteria();
      emitted := filters;
    }
  }
}
