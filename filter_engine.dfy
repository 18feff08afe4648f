/**
 * The table's record filter (`handleFilter`), the quick search
 * (`handleSearch`) and the view they derive from the full collection.
 */
module FilterEngine {
  import opened Options
  import opened Strings
  import opened Dates
  import opened Seqs
  import opened Appointments
  import opened FilterPanel

  // ---------------------------------------------------------------- one field

  /**
   * One lower-cased text field under one of the four text operators. An empty
   * filter value constrains nothing, and so does an operator the `switch`
   * does not know.
   */
  predicate TextPasses(val: string, op: string, fv: string) {
    if fv == [] then true
    else
      var v, f := Lower(val), Lower(fv);
      if op == OpEquals then v == f
      else if op == OpNotEquals then v != f
      else if op == OpContains then Contains(v, f)
      else if op == OpNotContains then !Contains(v, f)
      else true
  }

  /** The `isNAC` a filter text stands for: `'true'`, `'false'`, and `null` for anything else. */
  function NacTarget(fv: string): Option<bool> {
    if fv == "true" then Some(true) else if fv == "false" then Some(false) else None
  }

  /** The tri-state `isNAC` under `等于` / `不等于`. */
  predicate NacPasses(isNAC: Option<bool>, op: string, fv: string) {
    if fv == [] then true
    else if op == OpEquals then isNAC == NacTarget(fv)
    else if op == OpNotEquals then isNAC != NacTarget(fv)
    else true
  }

  /** `isActivated` under `等于` / `不等于`: every filter text but `'true'` stands for `false`. */
  predicate ActivatedPasses(isActivated: bool, op: string, fv: string) {
    if fv == [] then true
    else if op == OpEquals then isActivated == (fv == "true")
    else if op == OpNotEquals then isActivated != (fv == "true")
    else true
  }

  /**
   * What `s ? new Date(s) : null` yields: nothing for `""`, the day a
   * `YYYY-MM-DD` text denotes, or an Invalid Date for any other text.
   */
  datatype Bound = Absent | At(day: Day) | Invalid

  function ToBound(s: string): (b: Bound)
    ensures b.Absent? <==> s == []
    ensures b.At? <==> s != [] && ParseDate(s).Some?
    ensures b.At? ==> ParseDate(s) == Some(b.day)
  {
    if s == [] then Absent
    else match ParseDate(s)
      case Some(d) => At(d)
      case None => Invalid
  }

  /** `a < b` on two Date objects: an Invalid Date compares false with everything. */
  predicate Less(a: Bound, b: Bound) {
    a.At? && b.At? && Before(a.day, b.day)
  }

  /**
   * The validity period under `范围`: with both filter bounds the periods must
   * overlap, with one bound the record's opposite end is compared with it.
   * Any other date operator, or no filter bound at all, constrains nothing.
   */
  predicate DatePasses(from: string, to: string, op: string, ffrom: string, fto: string) {
    var aFrom, aTo, fFrom, fTo := ToBound(from), ToBound(to), ToBound(ffrom), ToBound(fto);
    if ffrom == [] && fto == [] then true
    else if op != OpRange then true
    else if !fFrom.Absent? && !fTo.Absent? then
      !aFrom.Absent? && !aTo.Absent? && !Less(aTo, fFrom) && !Less(fTo, aFrom)
    else if !fFrom.Absent? then !aTo.Absent? && !Less(aTo, fFrom)
    else !aFrom.Absent? && !Less(fTo, aFrom)
  }

  // ---------------------------------------------------------------- the record filter

  /** The four text fields `handleFilter` compares, and the record text each one reads. */
  predicate IsTextField(f: Field) {
    f == AppointmentNumber || f == Line || f == ShippingCompany || f == PriceNature
  }

  function FieldText(a: Appointment, f: Field): string
    requires IsTextField(f)
  {
    match f
    case AppointmentNumber => a.id
    case Line => a.line
    case ShippingCompany => a.shippingCompany
    case PriceNature => a.priceNature
  }

  /** The fields `handleFilter` reads besides the date operator. */
  predicate IsFilteredField(f: Field) {
    IsTextField(f) || f == IsNAC || f == IsActivated || f == ValidFrom || f == ValidTo
  }

  /** Whether one field `f` of the criteria lets `a` through. */
  predicate FieldPasses(a: Appointment, c: Criteria, f: Field) {
    if IsTextField(f) then TextPasses(FieldText(a, f), Op(c, f), Value(c, f))
    else if f == IsNAC then NacPasses(a.isNAC, Op(c, f), Value(c, f))
    else if f == IsActivated then ActivatedPasses(a.isActivated, Op(c, f), Value(c, f))
    else if f == ValidFrom || f == ValidTo then
      DatePasses(a.validFrom, a.validTo, Op(c, ValidDate), Value(c, ValidFrom), Value(c, ValidTo))
    else true
  }

  /** The body of the `filter` callback: a record is kept only if every field the filter reads passes. */
  predicate Matches(a: Appointment, c: Criteria) {
    FieldPasses(a, c, AppointmentNumber)
    && FieldPasses(a, c, Line)
    && FieldPasses(a, c, ShippingCompany)
    && FieldPasses(a, c, PriceNature)
    && FieldPasses(a, c, IsNAC)
    && FieldPasses(a, c, IsActivated)
    && FieldPasses(a, c, ValidFrom)
  }

  function Matching(c: Criteria): Appointment -> bool {
    x => Matches(x, c)
  }

  /** `allAppointments.filter(...)` in `handleFilter`. */
  function FilterRecords(all: seq<Appointment>, c: Criteria): (r: seq<Appointment>)
    ensures forall x :: x in r <==> x in all && Matches(x, c)
  {
    Filter(Matching(c), all)
  }

  /** The view the re-derive effect writes: the filtered collection once a filter was applied, else all of it. */
  function Derive(all: seq<Appointment>, current: Option<Criteria>): (r: seq<Appointment>)
    ensures current.None? ==> r == all
    ensures current.Some? ==> forall x :: x in r <==> x in all && Matches(x, current.value)
  {
    match current
    case None => all
    case Some(c) => FilterRecords(all, c)
  }

  // ---------------------------------------------------------------- quick search

  /** The quick-search test: the lower-cased term occurs in the id, the line or the shipping company. */
  predicate SearchHit(a: Appointment, term: string) {
    var t := Lower(term);
    Contains(Lower(a.id), t) || Contains(Lower(a.line), t) || Contains(Lower(a.shippingCompany), t)
  }

  function Hitting(term: string): Appointment -> bool {
    x => SearchHit(x, term)
  }

  /**
   * `handleSearch`: a blank term restores the filtered (or full) list, any
   * other term filters the full collection by `SearchHit`.
   */
  function Search(all: seq<Appointment>, current: Option<Criteria>, term: string): (r: seq<Appointment>)
    ensures IsBlank(term) ==> r == Derive(all, current)
    ensures !IsBlank(term) ==> forall x :: x in r <==> x in all && SearchHit(x, term)
  {
    if IsBlank(term) then Derive(all, current) else Filter(Hitting(term), all)
  }

  // ---------------------------------------------------------------- laws of the filter

  /** Each field of `Matches` is one `FieldPasses`, so a record is kept exactly when every read field passes. */
  lemma MatchesIsEveryField(a: Appointment, c: Criteria)
    ensures Matches(a, c) <==> forall f :: IsFilteredField(f) ==> FieldPasses(a, c, f)
  {
    if Matches(a, c) {
      forall f | IsFilteredField(f) ensures FieldPasses(a, c, f) {
        if f == ValidTo {
          DateFieldsAgree(a, c);
        }
      }
    }
  }

  /** Both date fields stand for the one validity-period test. */
  lemma DateFieldsAgree(a: Appointment, c: Criteria)
    ensures FieldPasses(a, c, ValidTo) == FieldPasses(a, c, ValidFrom)
  {
  }

  /** The filter keeps an order-preserving subsequence of the full collection. */
  lemma FilterKeepsOrder(all: seq<Appointment>, c: Criteria)
    ensures Subsequence(FilterRecords(all, c), all)
    ensures |FilterRecords(all, c)| <= |all|
  {
    FilterSubsequence(Matching(c), all);
  }

  /** Criteria whose read values are all empty keep the whole collection. */
  lemma EmptyCriteriaKeepAll(all: seq<Appointment>, c: Criteria)
    requires forall f :: IsFilteredField(f) ==> Value(c, f) == ""
    ensures FilterRecords(all, c) == all
  {
    assert Value(c, AppointmentNumber) == "" && Value(c, Line) == "" && Value(c, ShippingCompany) == ""
        && Value(c, PriceNature) == "" && Value(c, IsNAC) == "" && Value(c, IsActivated) == ""
        && Value(c, ValidFrom) == "" && Value(c, ValidTo) == "";
    FilterAllPass(Matching(c), all);
  }

  /** The panel's starting criteria, which `handleReset` also submits, keep the whole collection. */
  lemma InitialCriteriaKeepAll(all: seq<Appointment>)
    ensures FilterRecords(all, InitialCriteria()) == all
  {
    EmptyCriteriaKeepAll(all, InitialCriteria());
  }

  /**
   * Criteria that come from the panel can constrain only the contract number
   * and the shipping company: every other key the filter reads is absent.
   */
  lemma PanelCriteriaReadTwoFields(a: Appointment, c: Criteria)
    requires PanelOnly(c)
    ensures Matches(a, c) <==>
      TextPasses(a.id, Op(c, AppointmentNumber), Value(c, AppointmentNumber))
      && TextPasses(a.shippingCompany, Op(c, ShippingCompany), Value(c, ShippingCompany))
  {
    forall g | IsFilteredField(g) && g != AppointmentNumber && g != ShippingCompany
      ensures FieldPasses(a, c, g)
    {
      assert g !in PanelFields && ValidFrom !in PanelFields && ValidTo !in PanelFields;
      UnconstrainedFieldPasses(a, c, g);
    }
    MatchesIsEveryField(a, c);
    TextFieldPasses(a, c, AppointmentNumber);
    TextFieldPasses(a, c, ShippingCompany);
    assert FieldText(a, AppointmentNumber) == a.id && FieldText(a, ShippingCompany) == a.shippingCompany;
  }

  lemma TextFieldPasses(a: Appointment, c: Criteria, g: Field)
    requires IsTextField(g)
    ensures FieldPasses(a, c, g) == TextPasses(FieldText(a, g), Op(c, g), Value(c, g))
  {
  }

  /** A field with no filter value, or a date field with neither bound, lets every record through. */
  lemma UnconstrainedFieldPasses(a: Appointment, c: Criteria, g: Field)
    requires Value(c, g) == ""
    requires g == ValidFrom || g == ValidTo ==> Value(c, ValidFrom) == "" && Value(c, ValidTo) == ""
    ensures FieldPasses(a, c, g)
  {
  }

  /** `不等于` keeps exactly what `等于` rejects, and `不包含` exactly what `包含` rejects. */
  lemma TextOperatorsNegate(val: string, fv: string)
    requires fv != []
    ensures TextPasses(val, OpNotEquals, fv) <==> !TextPasses(val, OpEquals, fv)
    ensures TextPasses(val, OpNotContains, fv) <==> !TextPasses(val, OpContains, fv)
  {
  }

  /** Text comparison ignores ASCII case on both sides. */
  lemma TextIgnoresCase(val: string, op: string, fv: string)
    ensures TextPasses(Lower(val), op, fv) == TextPasses(val, op, fv)
    ensures TextPasses(val, op, Lower(fv)) == TextPasses(val, op, fv)
  {
    LowerIdempotent(val);
    LowerIdempotent(fv);
  }

  /** The fields whose value is compared under an operator of their own. */
  predicate IsOpField(f: Field) {
    IsTextField(f) || f == IsNAC || f == IsActivated
  }

  /** The keys that field `g` of the filter reads agree in `c` and `d`. */
  predicate SameInputs(c: Criteria, d: Criteria, g: Field) {
    if g == ValidFrom || g == ValidTo then
      Value(c, ValidFrom) == Value(d, ValidFrom) && Value(c, ValidTo) == Value(d, ValidTo)
      && Op(c, ValidDate) == Op(d, ValidDate)
    else Value(c, g) == Value(d, g) && Op(c, g) == Op(d, g)
  }

  lemma FieldCongruent(a: Appointment, c: Criteria, d: Criteria, g: Field)
    requires SameInputs(c, d, g)
    ensures FieldPasses(a, c, g) == FieldPasses(a, d, g)
  {
    if IsTextField(g) {
    } else if g == ValidFrom || g == ValidTo {
    }
  }

  /** Field `g` reads only the record fields it is named after. */
  lemma FieldReadsRecordFields(a: Appointment, b: Appointment, c: Criteria, g: Field)
    requires a.id == b.id && a.line == b.line && a.shippingCompany == b.shippingCompany
    requires a.priceNature == b.priceNature && a.isNAC == b.isNAC
    requires a.validFrom == b.validFrom && a.validTo == b.validTo
    requires g != IsActivated || a.isActivated == b.isActivated
    ensures FieldPasses(a, c, g) == FieldPasses(b, c, g)
  {
    if IsTextField(g) {
      assert FieldText(a, g) == FieldText(b, g);
    }
  }

  /** Clearing the value of `f` makes `f` pass and leaves every other field as it was. */
  lemma ClearedField(a: Appointment, c: Criteria, f: Field, g: Field)
    requires IsOpField(f)
    ensures FieldPasses(a, WithValue(c, f, ""), f)
    ensures g != f ==> FieldPasses(a, WithValue(c, f, ""), g) == FieldPasses(a, c, g)
  {
    var r := WithValue(c, f, "");
    if g != f {
      assert SameInputs(r, c, g);
      FieldCongruent(a, r, c, g);
    }
  }

  /** A record passes the criteria exactly when it passes them without `f` and passes `f`. */
  lemma MatchesSplit(a: Appointment, c: Criteria, f: Field)
    requires IsOpField(f)
    ensures Matches(a, c) == (Matches(a, WithValue(c, f, "")) && FieldPasses(a, c, f))
  {
    var r := WithValue(c, f, "");
    forall g | IsFilteredField(g)
      ensures FieldPasses(a, r, g) == (g == f || FieldPasses(a, c, g))
    {
      ClearedField(a, c, f, g);
    }
    MatchesIsEveryField(a, c);
    MatchesIsEveryField(a, r);
  }

  /** Once `f` is cleared, its operator no longer matters. */
  lemma ClearedOperatorIrrelevant(a: Appointment, c: Criteria, f: Field, op: string)
    requires IsOpField(f)
    ensures Matches(a, WithValue(WithOp(c, f, op), f, "")) == Matches(a, WithValue(c, f, ""))
  {
    var r, r' := WithValue(c, f, ""), WithValue(WithOp(c, f, op), f, "");
    forall g | IsFilteredField(g)
      ensures FieldPasses(a, r, g) == FieldPasses(a, r', g)
    {
      ClearedOperatorOneField(a, c, f, op, g);
    }
    MatchesIsEveryField(a, r);
    MatchesIsEveryField(a, r');
  }

  lemma ClearedOperatorOneField(a: Appointment, c: Criteria, f: Field, op: string, g: Field)
    requires IsOpField(f)
    ensures FieldPasses(a, WithValue(c, f, ""), g) == FieldPasses(a, WithValue(WithOp(c, f, op), f, ""), g)
  {
    var r, r' := WithValue(c, f, ""), WithValue(WithOp(c, f, op), f, "");
    if g == f {
      ClearedField(a, WithOp(c, f, op), f, f);
      ClearedField(a, c, f, f);
    } else {
      assert SameInputs(r, r', g);
      FieldCongruent(a, r, r', g);
    }
  }

  /** On a constrained field, the negated operator lets through exactly what the other one stops. */
  lemma OperatorNegates(a: Appointment, c: Criteria, f: Field, pos: string, neg: string)
    requires Value(c, f) != ""
    requires (IsTextField(f) && ((pos == OpEquals && neg == OpNotEquals) || (pos == OpContains && neg == OpNotContains)))
          || ((f == IsNAC || f == IsActivated) && pos == OpEquals && neg == OpNotEquals)
    ensures FieldPasses(a, WithOp(c, f, neg), f) == !FieldPasses(a, WithOp(c, f, pos), f)
  {
    var cp, cn := WithOp(c, f, pos), WithOp(c, f, neg);
    assert Value(cp, f) == Value(c, f) && Value(cn, f) == Value(c, f);
    if IsTextField(f) {
      TextOperatorsNegate(FieldText(a, f), Value(c, f));
    }
  }

  /**
   * Two criteria that differ only in the operator of a constrained field `f`,
   * one `pos` and the other its negation `neg`, split the records that pass
   * the criteria without `f` into two parts that together hold each record
   * as often as before.
   */
  lemma NegatedOperatorPartitions(all: seq<Appointment>, c: Criteria, f: Field, pos: string, neg: string)
    requires Value(c, f) != ""
    requires (IsTextField(f) && ((pos == OpEquals && neg == OpNotEquals) || (pos == OpContains && neg == OpNotContains)))
          || ((f == IsNAC || f == IsActivated) && pos == OpEquals && neg == OpNotEquals)
    ensures multiset(FilterRecords(all, WithOp(c, f, pos))) + multiset(FilterRecords(all, WithOp(c, f, neg)))
         == multiset(FilterRecords(all, WithValue(c, f, "")))
  {
    var cp, cn := WithOp(c, f, pos), WithOp(c, f, neg);
    var p := Matching(WithValue(c, f, ""));
    var q := x => FieldPasses(x, cp, f);
    forall x | x in all
      ensures Matches(x, cp) == (p(x) && q(x))
      ensures Matches(x, cn) == (p(x) && !q(x))
    {
      MatchesSplit(x, cp, f);
      MatchesSplit(x, cn, f);
      ClearedOperatorIrrelevant(x, c, f, pos);
      ClearedOperatorIrrelevant(x, c, f, neg);
      OperatorNegates(x, c, f, pos, neg);
    }
    FilterPartition(p, q, Matching(cp), Matching(cn), all);
  }

  /** An operator the filter does not know leaves its field unconstrained. */
  lemma UnknownOperatorIgnored(all: seq<Appointment>, c: Criteria, f: Field)
    requires IsOpField(f)
    requires Op(c, f) != OpEquals && Op(c, f) != OpNotEquals
    requires IsTextField(f) ==> Op(c, f) != OpContains && Op(c, f) != OpNotContains
    ensures FilterRecords(all, c) == FilterRecords(all, WithValue(c, f, ""))
  {
    forall x | x in all
      ensures Matches(x, c) == Matches(x, WithValue(c, f, ""))
    {
      MatchesSplit(x, c, f);
    }
    FilterCongruent(Matching(c), Matching(WithValue(c, f, "")), all);
  }

  /** Applying a filter to its own result changes nothing. */
  lemma FilterIdempotentOnRecords(all: seq<Appointment>, c: Criteria)
    ensures FilterRecords(FilterRecords(all, c), c) == FilterRecords(all, c)
  {
    FilterIdempotent(Matching(c), all);
  }

  /** The `isNAC` filter values and the records they keep under `等于`. */
  lemma NacEqualsKeeps(isNAC: Option<bool>, fv: string)
    requires fv != []
    ensures fv == "true" ==> (NacPasses(isNAC, OpEquals, fv) <==> isNAC == Some(true))
    ensures fv == "false" ==> (NacPasses(isNAC, OpEquals, fv) <==> isNAC == Some(false))
    ensures fv != "true" && fv != "false" ==> (NacPasses(isNAC, OpEquals, fv) <==> isNAC.None?)
  {
  }

  /** Under `等于`, `'true'` keeps the activated records and every other value the deactivated ones. */
  lemma ActivatedEqualsKeeps(isActivated: bool, fv: string)
    requires fv != []
    ensures fv == "true" ==> (ActivatedPasses(isActivated, OpEquals, fv) <==> isActivated)
    ensures fv != "true" ==> (ActivatedPasses(isActivated, OpEquals, fv) <==> !isActivated)
  {
  }

  // ---------------------------------------------------------------- the date range

  /** `d` lies in the closed period from `lo` to `hi`. */
  predicate Within(d: Date, lo: Date, hi: Date) {
    !Before(d, lo) && !Before(hi, d)
  }

  /**
   * With both filter bounds and both record bounds given as well-formed days,
   * `范围` keeps a record exactly when the two periods share a day.
   */
  lemma RangeIsOverlap(from: string, to: string, ffrom: string, fto: string)
    requires ParseDate(from).Some? && ParseDate(to).Some? && ParseDate(ffrom).Some? && ParseDate(fto).Some?
    requires !Before(ParseDate(to).value, ParseDate(from).value)
    requires !Before(ParseDate(fto).value, ParseDate(ffrom).value)
    ensures DatePasses(from, to, OpRange, ffrom, fto) <==>
      exists d: Date :: Within(d, ParseDate(from).value, ParseDate(to).value)
                     && Within(d, ParseDate(ffrom).value, ParseDate(fto).value)
  {
    var a1, a2, f1, f2 := ParseDate(from).value, ParseDate(to).value, ParseDate(ffrom).value, ParseDate(fto).value;
    if DatePasses(from, to, OpRange, ffrom, fto) {
      var d := if Before(a1, f1) then f1 else a1;
      BeforeIsStrictTotalOrder(a1, f1, a2);
      BeforeIsStrictTotalOrder(f1, a1, f2);
      BeforeIsStrictTotalOrder(a1, a2, f2);
      BeforeIsStrictTotalOrder(f1, f2, a2);
      assert Within(d, a1, a2) && Within(d, f1, f2);
    } else {
      forall d: Date | Within(d, a1, a2)
        ensures !Within(d, f1, f2)
      {
        BeforeIsStrictTotalOrder(a2, d, f1);
        BeforeIsStrictTotalOrder(f2, d, a1);
        BeforeIsStrictTotalOrder(d, a2, f1);
        BeforeIsStrictTotalOrder(d, f2, a1);
      }
    }
  }

  /** With only a start bound, `范围` keeps the records that end on or after it. */
  lemma RangeFromOnly(from: string, to: string, ffrom: string)
    requires ParseDate(ffrom).Some? && ParseDate(to).Some?
    ensures DatePasses(from, to, OpRange, ffrom, "") <==> !Before(ParseDate(to).value, ParseDate(ffrom).value)
  {
  }

  /** With only an end bound, `范围` keeps the records that start on or before it. */
  lemma RangeToOnly(from: string, to: string, fto: string)
    requires ParseDate(fto).Some? && ParseDate(from).Some?
    ensures DatePasses(from, to, OpRange, "", fto) <==> !Before(ParseDate(fto).value, ParseDate(from).value)
  {
  }

  /** With both filter bounds, a record missing either bound is dropped. */
  lemma RangeNeedsBothRecordBounds(from: string, to: string, ffrom: string, fto: string)
    requires ffrom != [] && fto != []
    requires from == [] || to == []
    ensures !DatePasses(from, to, OpRange, ffrom, fto)
  {
  }

  /** Any date operator other than `范围` leaves the period unconstrained. */
  lemma OtherDateOperatorIgnored(from: string, to: string, op: string, ffrom: string, fto: string)
    requires op != OpRange
    ensures DatePasses(from, to, op, ffrom, fto)
  {
  }

  // ---------------------------------------------------------------- laws of the search

  /** The search is case-insensitive in its term. */
  lemma SearchIgnoresTermCase(all: seq<Appointment>, current: Option<Criteria>, term: string)
    requires !IsBlank(term)
    ensures !IsBlank(Lower(term))
    ensures Search(all, current, Lower(term)) == Search(all, current, term)
  {
    var k :| 0 <= k < |term| && !IsWhitespace(term[k]);
    assert !IsWhitespace(Lower(term)[k]);
    LowerIdempotent(term);
    FilterCongruent(Hitting(Lower(term)), Hitting(term), all);
  }

  /** A non-blank search keeps an order-preserving subsequence of the full collection. */
  lemma SearchKeepsOrder(all: seq<Appointment>, current: Option<Criteria>, term: string)
    requires !IsBlank(term)
    ensures Subsequence(Search(all, current, term), all)
  {
    FilterSubsequence(Hitting(term), all);
  }

  // ---------------------------------------------------------------- examples

  /** A record shaped like the seed contract `WT2383333` of OOCL. */
  function SampleRecord(): Appointment {
    Appointment("WT2383333", "", true, true, "OOCL", "海外代理约价", Some(false), "", Some("特种柜"), "",
                "140", Some("有"), "50", "TEU/周", "2024-04-01", "2024-10-31")
  }

  /** `包含 'wt'` finds the contract whatever the case; `不包含` drops it. */
  lemma ExampleContainsIgnoresCase()
    ensures TextPasses(SampleRecord().id, OpContains, "wt")
    ensures !TextPasses(SampleRecord().id, OpNotContains, "wt")
  {
    var v := Lower(SampleRecord().id);
    assert Lower("wt") == "wt";
    assert v[0] == 'w' && v[1] == 't';
    assert v[..2] == "wt";
    ContainsAt(v, "wt", 0);
  }
}
