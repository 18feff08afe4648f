/**
 * The contract edit dialog: the field-update rules of its form, the clear
 * buttons, the multi-select list of shipping lines whose selection is written
 * into `line` as comma-separated text, and the single-select carrier list.
 */
module EditModal {
  import opened Options
  import opened Strings
  import opened Seqs
  import opened Appointments
  import opened TableCells
  import opened Dates

  const Yes := "是"
  const Other := "其他"
  const Has := "有"
  const DefaultUnit := "TEU/水"

  /** The form a new contract starts with. */
  const InitialForm: Appointment :=
    Appointment("", "", true, false, "", "自有约价", None, "", None, "", "", None, "", DefaultUnit, "", "")

  // ---------------------------------------------------------------- the form fields written by name

  /** The text fields the inputs and clear buttons name. */
  const TextFields: set<string> := {
    "id", "line", "shippingCompany", "priceNature", "nac", "customProduct",
    "mqc", "cabinProtectionValue", "cabinProtectionUnit", "validFrom", "validTo"
  }

  /** The text field `name` of the form. */
  function TextOf(a: Appointment, name: string): string {
    if name == "id" then a.id
    else if name == "line" then a.line
    else if name == "shippingCompany" then a.shippingCompany
    else if name == "priceNature" then a.priceNature
    else if name == "nac" then a.nac
    else if name == "customProduct" then a.customProduct
    else if name == "mqc" then a.mqc
    else if name == "cabinProtectionValue" then a.cabinProtectionValue
    else if name == "cabinProtectionUnit" then a.cabinProtectionUnit
    else if name == "validFrom" then a.validFrom
    else if name == "validTo" then a.validTo
    else ""
  }

  /** `{...form, [name]: value}` on a text field; a name the form does not hold changes nothing. */
  function WithText(a: Appointment, name: string, value: string): (r: Appointment)
    ensures name in TextFields ==> TextOf(r, name) == value
    ensures forall k :: k != name ==> TextOf(r, k) == TextOf(a, k)
    ensures r.isActivated == a.isActivated && r.isSelected == a.isSelected && r.isNAC == a.isNAC
    ensures r.applicableProducts == a.applicableProducts && r.cabinProtection == a.cabinProtection
    ensures name !in TextFields ==> r == a
  {
    if name == "id" then a.(id := value)
    else if name == "line" then a.(line := value)
    else if name == "shippingCompany" then a.(shippingCompany := value)
    else if name == "priceNature" then a.(priceNature := value)
    else if name == "nac" then a.(nac := value)
    else if name == "customProduct" then a.(customProduct := value)
    else if name == "mqc" then a.(mqc := value)
    else if name == "cabinProtectionValue" then a.(cabinProtectionValue := value)
    else if name == "cabinProtectionUnit" then a.(cabinProtectionUnit := value)
    else if name == "validFrom" then a.(validFrom := value)
    else if name == "validTo" then a.(validTo := value)
    else a
  }

  /** `handleChange`: the rule each named input follows. */
  function FieldChanged(form: Appointment, name: string, value: string): (r: Appointment)
    ensures name == "isActivated" ==> r == form.(isActivated := value == Yes)
    ensures name == "isNAC" ==> r == form.(isNAC := if value == "" then None else Some(value == Yes))
    ensures name == "applicableProducts" ==>
      r == form.(applicableProducts := if value == "" then None else Some(value),
                 customProduct := if value == Other then form.customProduct else "")
    ensures name == "mqc" ==> r == if IsDigits(value) then form.(mqc := value) else form
    ensures name == "cabinProtectionValue" ==> r == if IsDigits(value) then form.(cabinProtectionValue := value) else form
    ensures name == "cabinProtection" ==>
      r == form.(cabinProtection := if value == "" then None else Some(value),
                 cabinProtectionValue := if value == Has then form.cabinProtectionValue else "",
                 cabinProtectionUnit := if value == Has then OrElse(form.cabinProtectionUnit, DefaultUnit) else DefaultUnit)
    ensures name !in {"isActivated", "isNAC", "applicableProducts", "mqc", "cabinProtection", "cabinProtectionValue"} ==>
      r == WithText(form, name, value)
  {
    if name == "isActivated" then form.(isActivated := value == Yes)
    else if name == "isNAC" then form.(isNAC := if value == "" then None else Some(value == Yes))
    else if name == "applicableProducts" then
      form.(applicableProducts := if value == "" then None else Some(value),
            customProduct := if value == Other then form.customProduct else "")
    else if name == "mqc" then (if value == "" || IsDigits(value) then form.(mqc := value) else form)
    else if name == "cabinProtection" then
      form.(cabinProtection := if value == "" then None else Some(value),
            cabinProtectionValue := if value == Has then form.cabinProtectionValue else "",
            cabinProtectionUnit := if value == Has then OrElse(form.cabinProtectionUnit, DefaultUnit) else DefaultUnit)
    else if name == "cabinProtectionValue" then
      (if value == "" || IsDigits(value) then form.(cabinProtectionValue := value) else form)
    else WithText(form, name, value)
  }

  /** The two number-only fields hold digits only. */
  predicate DigitFields(a: Appointment) {
    IsDigits(a.mqc) && IsDigits(a.cabinProtectionValue)
  }

  /** No input can bring a non-digit into `mqc` or the cabin-protection amount. */
  lemma ChangeKeepsDigitFields(form: Appointment, name: string, value: string)
    requires DigitFields(form)
    ensures DigitFields(FieldChanged(form, name, value))
  {
    var r := FieldChanged(form, name, value);
    if name !in {"isActivated", "isNAC", "applicableProducts", "mqc", "cabinProtection", "cabinProtectionValue"} {
      assert TextOf(r, "mqc") == TextOf(form, "mqc");
      assert TextOf(r, "cabinProtectionValue") == TextOf(form, "cabinProtectionValue");
    }
  }

  /** A non-digit typed into `mqc` leaves the form as it was; digits replace the field. */
  lemma DigitOnlyInput(form: Appointment, value: string)
    ensures FieldChanged(form, "mqc", value).mqc == value <==> IsDigits(value) || value == form.mqc
    ensures !IsDigits(value) ==> FieldChanged(form, "mqc", value) == form
  {
  }

  /** Choosing in a select the option the form already shows changes nothing, for the two yes/no selects. */
  lemma ChoosingShownOptionKeepsForm(form: Appointment)
    ensures FieldChanged(form, "isActivated", CellText(form, "isActivated")) == form
    ensures FieldChanged(form, "isNAC", CellText(form, "isNAC")) == form
  {
  }

  /** The `isNAC` select reads `''` as null and every other option but `是` as false. */
  lemma NacOptions(form: Appointment, value: string)
    ensures FieldChanged(form, "isNAC", value).isNAC.None? <==> value == ""
    ensures FieldChanged(form, "isNAC", value).isNAC == Some(true) <==> value == Yes
  {
  }

  /** The cabin-protection amount survives a change of the select only when `有` is chosen, and a unit is then always set. */
  lemma CabinProtectionChange(form: Appointment, value: string)
    ensures var r := FieldChanged(form, "cabinProtection", value);
      (r.cabinProtectionValue == form.cabinProtectionValue || r.cabinProtectionValue == "")
      && (value != Has ==> r.cabinProtectionValue == "" && r.cabinProtectionUnit == DefaultUnit)
      && r.cabinProtectionUnit != ""
      && (r.cabinProtection.None? <==> value == "")
  {
  }

  // ---------------------------------------------------------------- the clear buttons

  /** `handleClearNAC`. */
  function ClearedNac(form: Appointment): (r: Appointment)
    ensures CellText(r, "isNAC") == "" && CellText(r, "nac") == ""
    ensures TextOf(r, "nac") == "" && forall k :: k != "nac" ==> TextOf(r, k) == TextOf(form, k)
  {
    form.(isNAC := None, nac := "")
  }

  /** `handleClearProduct`. */
  function ClearedProduct(form: Appointment): (r: Appointment)
    ensures CellText(r, "applicableProducts") == ""
    ensures TextOf(r, "customProduct") == "" && forall k :: k != "customProduct" ==> TextOf(r, k) == TextOf(form, k)
  {
    form.(applicableProducts := None, customProduct := "")
  }

  /** `handleClearCabinProtection`: the unit goes back to its default. */
  function ClearedCabinProtection(form: Appointment): (r: Appointment)
    ensures CellText(r, "cabinProtection") == ""
    ensures r == FieldChanged(form, "cabinProtection", "")
  {
    form.(cabinProtection := None, cabinProtectionValue := "", cabinProtectionUnit := DefaultUnit)
  }

  /** The clear buttons keep the number-only fields numeric. */
  lemma ClearingKeepsDigitFields(form: Appointment, name: string)
    requires DigitFields(form)
    ensures DigitFields(WithText(form, name, ""))
    ensures DigitFields(ClearedNac(form)) && DigitFields(ClearedProduct(form)) && DigitFields(ClearedCabinProtection(form))
  {
    ClearedTextKeepsDigitFields(form, name);
    ClearedCellsKeepDigitFields(form);
  }

  lemma ClearedTextKeepsDigitFields(form: Appointment, name: string)
    requires DigitFields(form)
    ensures DigitFields(WithText(form, name, ""))
  {
    var r := WithText(form, name, "");
    assert TextOf(r, "mqc") == "" || TextOf(r, "mqc") == TextOf(form, "mqc");
    assert TextOf(r, "cabinProtectionValue") == "" || TextOf(r, "cabinProtectionValue") == TextOf(form, "cabinProtectionValue");
  }

  lemma ClearedCellsKeepDigitFields(form: Appointment)
    requires DigitFields(form)
    ensures DigitFields(ClearedNac(form)) && DigitFields(ClearedProduct(form)) && DigitFields(ClearedCabinProtection(form))
  {
    assert ClearedCabinProtection(form).cabinProtectionValue == "";
  }

  // ---------------------------------------------------------------- shipping lines

  datatype ShippingLine = ShippingLine(id: int, nameCn: string, nameEn: string, selected: bool)

  /** The seven lines the dialog offers, none selected. */
  const DefaultLines: seq<ShippingLine> := [
    ShippingLine(1, "新加坡", "Singapore", false),
    ShippingLine(2, "阿拉木图", "Almaty", false),
    ShippingLine(3, "加勒比", "Caribbean", false),
    ShippingLine(4, "印尼", "Indonesia", false),
    ShippingLine(5, "中美洲", "Central America", false),
    ShippingLine(6, "非洲", "Africa", false),
    ShippingLine(7, "南美洲", "South America", false)
  ]

  predicate IsChosen(l: ShippingLine) {
    l.selected
  }

  function NameCn(l: ShippingLine): string {
    l.nameCn
  }

  function Flipping(id: int): ShippingLine -> ShippingLine {
    (l: ShippingLine) => if l.id == id then l.(selected := !l.selected) else l
  }

  /** The lines of `handleShippingLineClick`: the line with that id changes its flag, no other line changes. */
  function ToggleLine(lines: seq<ShippingLine>, id: int): (r: seq<ShippingLine>)
    ensures |r| == |lines|
    ensures forall i :: 0 <= i < |lines| ==>
      r[i] == if lines[i].id == id then lines[i].(selected := !lines[i].selected) else lines[i]
  {
    Map(Flipping(id), lines)
  }

  /** Clicking the same line twice restores the list. */
  lemma ToggleLineTwice(lines: seq<ShippingLine>, id: int)
    ensures ToggleLine(ToggleLine(lines, id), id) == lines
  {
  }

  /** The Chinese names of the selected lines, in list order. */
  function SelectedNames(lines: seq<ShippingLine>): (names: seq<string>)
    ensures forall n :: n in names <==> exists l :: l in lines && l.selected && l.nameCn == n
  {
    var chosen := Filter(IsChosen, lines);
    var names := Map(NameCn, chosen);
    assert forall n :: n in names ==> exists l :: l in chosen && l.nameCn == n by {
      forall n | n in names ensures exists l :: l in chosen && l.nameCn == n {
        var k :| 0 <= k < |names| && names[k] == n;
        assert chosen[k] in chosen;
      }
    }
    assert forall l :: l in chosen ==> l.nameCn in names by {
      forall l | l in chosen ensures l.nameCn in names {
        var k :| 0 <= k < |chosen| && chosen[k] == l;
        assert names[k] == l.nameCn;
      }
    }
    names
  }

  /** No line's Chinese name holds the `,` that `line` uses between names. */
  predicate CommaFreeNames(lines: seq<ShippingLine>) {
    forall i :: 0 <= i < |lines| ==> ',' !in lines[i].nameCn
  }

  /** The `line` text: the selected names joined by `,`; cutting it at `,` gives the names back. */
  function LineText(lines: seq<ShippingLine>): (r: string)
    ensures SelectedNames(lines) == [] ==> r == ""
    ensures SelectedNames(lines) != [] && CommaFreeNames(lines) ==> Split(r, ',') == SelectedNames(lines)
  {
    var names := SelectedNames(lines);
    if names != [] && CommaFreeNames(lines) then
      SelectedNamesCommaFree(lines);
      SplitJoin(names, ',');
      Join(names, ',')
    else
      Join(names, ',')
  }

  lemma SelectedNamesCommaFree(lines: seq<ShippingLine>)
    requires CommaFreeNames(lines)
    ensures forall k :: 0 <= k < |SelectedNames(lines)| ==> ',' !in SelectedNames(lines)[k]
  {
    var names := SelectedNames(lines);
    forall k | 0 <= k < |names| ensures ',' !in names[k] {
      assert names[k] in names;
      var l :| l in lines && l.selected && l.nameCn == names[k];
      var i :| 0 <= i < |lines| && lines[i] == l;
    }
  }

  /** The display text: the same names joined by `, `, which is the `line` text with each `,` widened to `, `. */
  function LineDisplay(lines: seq<ShippingLine>): (r: string)
    ensures SelectedNames(lines) == [] ==> r == ""
    ensures |SelectedNames(lines)| == 1 ==> r == LineText(lines)
    ensures CommaFreeNames(lines) && LineText(lines) != "" ==> r == JoinWith(Split(LineText(lines), ','), ", ")
  {
    JoinWith(SelectedNames(lines), ", ")
  }

  function Marking(names: seq<string>): ShippingLine -> ShippingLine {
    (l: ShippingLine) => l.(selected := l.nameCn in names)
  }

  /** The lines the loading effect marks for a `line` text: those whose name is one of its `,`-separated parts. */
  function LoadSelection(lines: seq<ShippingLine>, text: string): (r: seq<ShippingLine>)
    ensures |r| == |lines|
    ensures forall i :: 0 <= i < |lines| ==> r[i] == lines[i].(selected := lines[i].nameCn in Split(text, ','))
  {
    Map(Marking(Split(text, ',')), lines)
  }

  function Unmarking(): ShippingLine -> ShippingLine {
    (l: ShippingLine) => l.(selected := false)
  }

  /** `lines.map(line => ({...line, selected: false}))`. */
  function Unselected(lines: seq<ShippingLine>): (r: seq<ShippingLine>)
    ensures |r| == |lines|
    ensures forall i :: 0 <= i < |lines| ==> r[i] == lines[i].(selected := false)
  {
    Map(Unmarking(), lines)
  }

  /** No two lines share a name, and no name is empty or holds a comma. */
  predicate PlainNames(lines: seq<ShippingLine>) {
    (forall i, j :: 0 <= i < |lines| && 0 <= j < |lines| && lines[i].nameCn == lines[j].nameCn ==> i == j)
    && CommaFreeNames(lines)
    && forall i :: 0 <= i < |lines| ==> lines[i].nameCn != ""
  }

  /** The selection written into `line` is the selection the loading effect reads back. */
  lemma LoadSelectionOfLineText(lines: seq<ShippingLine>)
    requires PlainNames(lines)
    ensures LoadSelection(lines, LineText(lines)) == lines
  {
    var names := SelectedNames(lines);
    if names == [] {
      assert Split(LineText(lines), ',') == [""];
    } else {
      assert Split(LineText(lines), ',') == names;
      forall i | 0 <= i < |lines| ensures (lines[i].nameCn in names) == lines[i].selected {
        assert lines[i] in lines;
        if lines[i].nameCn in names {
          var l :| l in lines && l.selected && l.nameCn == lines[i].nameCn;
          var j :| 0 <= j < |lines| && lines[j] == l;
        }
      }
    }
  }

  /**
   * Saving the dialog and opening the saved record again restores the line
   * selection and its display text, when some line was chosen.
   */
  lemma ReopenRestoresLines(lines: seq<ShippingLine>)
    requires PlainNames(lines) && LineText(lines) != ""
    ensures LoadSelection(lines, LineText(lines)) == lines
    ensures JoinWith(Split(LineText(lines), ','), ", ") == LineDisplay(lines)
  {
    LoadSelectionOfLineText(lines);
  }

  // ---------------------------------------------------------------- search lists

  function LineHit(term: string): ShippingLine -> bool {
    (l: ShippingLine) => Contains(Lower(l.nameCn), Lower(term)) || Contains(Lower(l.nameEn), Lower(term))
  }

  /** The line-search effect: with the dropdown open, the lines whose Chinese or English name contains the term. */
  function LineSearch(lines: seq<ShippingLine>, term: string, open: bool): (r: seq<ShippingLine>)
    ensures !open ==> r == lines
    ensures forall l :: l in r <==> l in lines && (!open || LineHit(term)(l))
    ensures Subsequence(r, lines)
  {
    if open then
      FilterSubsequence(LineHit(term), lines);
      Filter(LineHit(term), lines)
    else
      SubsequenceOfItself(lines);
      lines
  }

  /** An empty search term keeps every line. */
  lemma EmptyLineSearchKeepsAll(lines: seq<ShippingLine>, open: bool)
    ensures LineSearch(lines, "", open) == lines
  {
    forall l | l in lines ensures LineHit("")(l) {
      assert "" <= Lower(l.nameCn);
    }
    FilterAllPass(LineHit(""), lines);
  }

  datatype ShippingCompany = ShippingCompany(id: int, code: string, name: string)

  /** The ten carriers the dialog offers. */
  const DefaultCompanies: seq<ShippingCompany> := [
    ShippingCompany(1, "MSK", "马士基"),
    ShippingCompany(2, "MSC", "地中海"),
    ShippingCompany(3, "CMA", "达飞"),
    ShippingCompany(4, "COSCO", "中远海运"),
    ShippingCompany(5, "HPL", "赫伯罗特"),
    ShippingCompany(6, "ONE", "海洋网联"),
    ShippingCompany(7, "EVG", "长荣海运"),
    ShippingCompany(8, "YML", "阳明海运"),
    ShippingCompany(9, "ZIM", "以星航运"),
    ShippingCompany(10, "OOCL", "东方海外")
  ]

  function CompanyHit(term: string): ShippingCompany -> bool {
    (c: ShippingCompany) => Contains(Lower(c.code), Lower(term)) || Contains(Lower(c.name), Lower(term))
  }

  /** The carrier-search effect: with the dropdown open, the carriers whose code or name contains the term. */
  function CompanySearch(companies: seq<ShippingCompany>, term: string, open: bool): (r: seq<ShippingCompany>)
    ensures !open ==> r == companies
    ensures forall c :: c in r <==> c in companies && (!open || CompanyHit(term)(c))
    ensures Subsequence(r, companies)
  {
    if open then
      FilterSubsequence(CompanyHit(term), companies);
      Filter(CompanyHit(term), companies)
    else
      SubsequenceOfItself(companies);
      companies
  }

  predicate Names(c: ShippingCompany, s: string) {
    c.code == s || c.name == s
  }

  /** `companies.find(c => c.code === s || c.name === s)`. */
  function FindCompany(companies: seq<ShippingCompany>, s: string): (r: Option<ShippingCompany>)
    ensures r.None? <==> forall c :: c in companies ==> !Names(c, s)
    ensures r.Some? ==> r.value in companies && Names(r.value, s)
    ensures r.Some? ==>
      exists k :: 0 <= k < |companies| && companies[k] == r.value && forall j :: 0 <= j < k ==> !Names(companies[j], s)
    decreases |companies|
  {
    if companies == [] then None
    else if Names(companies[0], s) then Some(companies[0])
    else
      var r := FindCompany(companies[1..], s);
      FindCompanyStep(companies, s, r);
      r
  }

  /** The first match in the tail, when the head does not match, is the first match in the whole list. */
  lemma FindCompanyStep(companies: seq<ShippingCompany>, s: string, r: Option<ShippingCompany>)
    requires companies != [] && !Names(companies[0], s)
    requires r.None? <==> forall c :: c in companies[1..] ==> !Names(c, s)
    requires r.Some? ==> r.value in companies[1..] && Names(r.value, s)
    requires r.Some? ==>
      exists k :: 0 <= k < |companies[1..]| && companies[1..][k] == r.value && forall j :: 0 <= j < k ==> !Names(companies[1..][j], s)
    ensures r.None? <==> forall c :: c in companies ==> !Names(c, s)
    ensures r.Some? ==>
      exists k :: 0 <= k < |companies| && companies[k] == r.value && forall j :: 0 <= j < k ==> !Names(companies[j], s)
  {
    assert forall c :: c in companies ==> c == companies[0] || c in companies[1..];
    if r.Some? {
      var k :| 0 <= k < |companies[1..]| && companies[1..][k] == r.value
        && forall j :: 0 <= j < k ==> !Names(companies[1..][j], s);
      assert companies[k + 1] == r.value;
      forall j | 0 <= j < k + 1 ensures !Names(companies[j], s) {
        if j > 0 {
          assert companies[j] == companies[1..][j - 1];
        }
      }
    }
  }

  /** The carrier text the dialog shows for a stored carrier: `code | name` when the list knows it, else the text itself. */
  function CompanyDisplay(companies: seq<ShippingCompany>, s: string): (r: string)
    ensures (forall c :: c in companies ==> !Names(c, s)) ==> r == s
    ensures (exists c :: c in companies && Names(c, s)) ==>
      exists c :: c in companies && Names(c, s) && r == c.code + " | " + c.name
  {
    match FindCompany(companies, s)
    case Some(c) => c.code + " | " + c.name
    case None => s
  }

  /** The carrier codes are distinct and no carrier is named by another's code. */
  predicate PlainCodes(companies: seq<ShippingCompany>) {
    forall i, j :: 0 <= i < |companies| && 0 <= j < |companies| && Names(companies[j], companies[i].code) ==> i == j
  }

  /** Picking a carrier from the list and reopening the dialog shows the same text. */
  lemma CompanyDisplayOfPickedCode(companies: seq<ShippingCompany>, k: nat)
    requires PlainCodes(companies) && k < |companies|
    ensures CompanyDisplay(companies, companies[k].code) == companies[k].code + " | " + companies[k].name
  {
    var c := companies[k];
    assert Names(c, c.code);
    assert c in companies;
    var r := FindCompany(companies, c.code);
    var j :| 0 <= j < |companies| && companies[j] == r.value
      && forall i :: 0 <= i < j ==> !Names(companies[i], c.code);
  }

  /** Four codes the dialog stores are not carrier codes the table knows, so the table shows them without a name. */
  lemma TableDoesNotNameDialogCodes()
    ensures forall code :: code in {"MSK", "HPL", "EVG", "YML"} ==> CompanyName(code) == code
  {
  }

  // ---------------------------------------------------------------- the browser's checks on submit

  /**
   * The end date lies before the start date, which the end input's
   * `min={form.validFrom}` forbids. The date inputs hold `""` or a
   * `YYYY-MM-DD` day, and an empty or unreadable bound sets no limit.
   */
  predicate EndsBeforeStart(f: Appointment) {
    var from := ParseDate(f.validFrom);
    var to := ParseDate(f.validTo);
    from.Some? && to.Some? && Before(to.value, from.value)
  }

  /**
   * The form passes the browser's constraint validation: every `required`
   * input on screen is non-empty (the NAC, custom-product and cabin-protection
   * inputs are on screen only in their cases) and the end date respects its `min`.
   */
  predicate Submittable(f: Appointment) {
    f.id != "" && f.priceNature != ""
    && (f.isNAC == Some(true) ==> f.nac != "")
    && (f.applicableProducts == Some(Other) ==> f.customProduct != "")
    && (f.cabinProtection == Some(Has) ==> f.cabinProtectionValue != "" && f.cabinProtectionUnit != "")
    && !EndsBeforeStart(f)
  }

  /** A new contract's form can be saved as soon as it has an id, and not before. */
  lemma NewFormNeedsOnlyId(id: string)
    ensures Submittable(InitialForm.(id := id)) <==> id != ""
  {
    assert ParseDate(InitialForm.validFrom).None?;
  }

  /** A saved contract's period never ends before it starts, and a shown NAC input was filled. */
  lemma SubmittedFormIsComplete(f: Appointment, from: Dates.Day, to: Dates.Day)
    requires Submittable(f)
    requires f.validFrom == Format(from) && f.validTo == Format(to)
    ensures !Before(to, from)
    ensures f.id != "" && (f.isNAC == Some(true) ==> f.nac != "")
  {
    ParseFormat(from);
    ParseFormat(to);
  }

  // ---------------------------------------------------------------- the dialog state

  class Dialog {
    var form: Appointment
    var shippingLines: seq<ShippingLine>
    var searchInput: string
    var selectedDisplay: string
    var showLineDropdown: bool
    var filteredLines: seq<ShippingLine>
    var companies: seq<ShippingCompany>
    var companySearchInput: string
    var showCompanyDropdown: bool
    var filteredCompanies: seq<ShippingCompany>
    var selectedCompanyDisplay: string

    /** The line text describes the selection. */
    ghost predicate Synced()
      reads this
    {
      form.line == LineText(shippingLines) && selectedDisplay == LineDisplay(shippingLines)
    }

    constructor()
      ensures form == InitialForm && shippingLines == DefaultLines && companies == DefaultCompanies
      ensures filteredLines == DefaultLines && filteredCompanies == DefaultCompanies
      ensures searchInput == "" && selectedDisplay == "" && companySearchInput == "" && selectedCompanyDisplay == ""
      ensures !showLineDropdown && !showCompanyDropdown
    {
      form := InitialForm;
      shippingLines := DefaultLines;
      searchInput := "";
      selectedDisplay := "";
      showLineDropdown := false;
      filteredLines := DefaultLines;
      companies := DefaultCompanies;
      companySearchInput := "";
      showCompanyDropdown := false;
      filteredCompanies := DefaultCompanies;
      selectedCompanyDisplay := "";
    }

    /** The line selector's fields are as they were. */
    twostate predicate LinesKept()
      reads this
    {
      shippingLines == old(shippingLines) && searchInput == old(searchInput) && selectedDisplay == old(selectedDisplay)
      && showLineDropdown == old(showLineDropdown) && filteredLines == old(filteredLines)
    }

    /** The carrier selector's fields are as they were. */
    twostate predicate CarriersKept()
      reads this
    {
      companies == old(companies) && companySearchInput == old(companySearchInput)
      && showCompanyDropdown == old(showCompanyDropdown) && filteredCompanies == old(filteredCompanies)
      && selectedCompanyDisplay == old(selectedCompanyDisplay)
    }

    /**
     * The loading effect. An existing contract is copied into the form; the
     * lines named in its `line` text are marked and shown, and its carrier is
     * shown as the list names it. A contract with no `line` leaves the line
     * flags, and one with no carrier the carrier text, as they were.
     */
    method Load(appointment: Option<Appointment>, isAdd: bool)
      modifies this`form, this`shippingLines, this`selectedDisplay, this`searchInput
      modifies this`selectedCompanyDisplay, this`companySearchInput
      ensures appointment.Some? ==>
        var a := appointment.value;
        form == a
        && (a.line != "" ==> shippingLines == LoadSelection(old(shippingLines), a.line)
                             && selectedDisplay == JoinWith(Split(a.line, ','), ", "))
        && (a.line == "" ==> shippingLines == old(shippingLines) && selectedDisplay == old(selectedDisplay))
        && selectedCompanyDisplay == (if a.shippingCompany != "" then CompanyDisplay(companies, a.shippingCompany)
                                      else old(selectedCompanyDisplay))
        && searchInput == old(searchInput) && companySearchInput == old(companySearchInput)
      ensures appointment.None? && isAdd ==>
        form == InitialForm && shippingLines == Unselected(old(shippingLines))
        && selectedDisplay == "" && searchInput == "" && selectedCompanyDisplay == "" && companySearchInput == ""
      ensures appointment.None? && !isAdd ==> form == old(form) && LinesKept() && CarriersKept()
      ensures showLineDropdown == old(showLineDropdown) && filteredLines == old(filteredLines)
      ensures companies == old(companies) && showCompanyDropdown == old(showCompanyDropdown)
      ensures filteredCompanies == old(filteredCompanies)
    {
      match appointment {
        case Some(a) =>
          form := a;
          if a.line != "" {
            var selectedLines := Split(a.line, ',');
            shippingLines := LoadSelection(shippingLines, a.line);
            selectedDisplay := JoinWith(selectedLines, ", ");
          }
          if a.shippingCompany != "" {
            selectedCompanyDisplay := CompanyDisplay(companies, a.shippingCompany);
          }
        case None =>
          if isAdd {
            form := InitialForm;
            shippingLines := Unselected(shippingLines);
            selectedDisplay := "";
            searchInput := "";
            selectedCompanyDisplay := "";
            companySearchInput := "";
          }
      }
    }

    /** The line-search effect. */
    method RefilterLines()
      modifies this`filteredLines
      ensures filteredLines == LineSearch(shippingLines, searchInput, showLineDropdown)
      ensures form == old(form) && shippingLines == old(shippingLines) && searchInput == old(searchInput)
      ensures showLineDropdown == old(showLineDropdown) && selectedDisplay == old(selectedDisplay)
      ensures CarriersKept()
    {
      filteredLines := LineSearch(shippingLines, searchInput, showLineDropdown);
    }

    /** The carrier-search effect. */
    method RefilterCompanies()
      modifies this`filteredCompanies
      ensures filteredCompanies == CompanySearch(companies, companySearchInput, showCompanyDropdown)
      ensures form == old(form) && companies == old(companies) && companySearchInput == old(companySearchInput)
      ensures showCompanyDropdown == old(showCompanyDropdown) && selectedCompanyDisplay == old(selectedCompanyDisplay)
      ensures LinesKept()
    {
      filteredCompanies := CompanySearch(companies, companySearchInput, showCompanyDropdown);
    }

    /** `handleChange`. */
    method Change(name: string, value: string)
      modifies this`form
      ensures form == FieldChanged(old(form), name, value)
      ensures LinesKept() && CarriersKept()
    {
      form := FieldChanged(form, name, value);
    }

    /** `handleClearInput`. */
    method ClearInput(name: string)
      modifies this`form
      ensures form == WithText(old(form), name, "")
      ensures LinesKept() && CarriersKept()
    {
      form := WithText(form, name, "");
    }

    /** `handleClearLines`: no line stays selected, and the line text and the search are emptied. */
    method ClearLines()
      modifies this`shippingLines, this`form, this`selectedDisplay, this`searchInput
      ensures shippingLines == Unselected(old(shippingLines))
      ensures form == old(form).(line := "") && selectedDisplay == "" && searchInput == ""
      ensures Synced()
      ensures showLineDropdown == old(showLineDropdown) && filteredLines == old(filteredLines) && CarriersKept()
    {
      shippingLines := Unselected(shippingLines);
      form := form.(line := "");
      selectedDisplay := "";
      searchInput := "";
      NoLineLeftSelected(old(shippingLines));
    }

    /** `handleClearCompany`. */
    method ClearCompany()
      modifies this`form, this`selectedCompanyDisplay, this`companySearchInput
      ensures form == old(form).(shippingCompany := "") && selectedCompanyDisplay == "" && companySearchInput == ""
      ensures companies == old(companies) && showCompanyDropdown == old(showCompanyDropdown)
      ensures filteredCompanies == old(filteredCompanies) && LinesKept()
      ensures Synced() == old(Synced())
    {
      form := form.(shippingCompany := "");
      selectedCompanyDisplay := "";
      companySearchInput := "";
    }

    /** `handleClearNAC`. */
    method ClearNac()
      modifies this`form
      ensures form == ClearedNac(old(form))
      ensures LinesKept() && CarriersKept() && Synced() == old(Synced())
    {
      form := ClearedNac(form);
    }

    /** `handleClearProduct`. */
    method ClearProduct()
      modifies this`form
      ensures form == ClearedProduct(old(form))
      ensures LinesKept() && CarriersKept() && Synced() == old(Synced())
    {
      form := ClearedProduct(form);
    }

    /** `handleClearCabinProtection`. */
    method ClearCabinProtection()
      modifies this`form
      ensures form == ClearedCabinProtection(old(form))
      ensures LinesKept() && CarriersKept() && Synced() == old(Synced())
    {
      form := ClearedCabinProtection(form);
    }

    /** `handleLineInputChange`: the typed text only searches, and opens the dropdown. */
    method LineInputChange(text: string)
      modifies this`searchInput, this`showLineDropdown
      ensures searchInput == text && showLineDropdown
      ensures form == old(form) && shippingLines == old(shippingLines) && selectedDisplay == old(selectedDisplay)
      ensures filteredLines == old(filteredLines) && CarriersKept() && Synced() == old(Synced())
    {
      searchInput := text;
      showLineDropdown := true;
    }

    /** `handleLineInputFocus`: opens the dropdown and keeps the search text. */
    method LineInputFocus()
      modifies this`showLineDropdown
      ensures showLineDropdown && searchInput == old(searchInput)
      ensures form == old(form) && shippingLines == old(shippingLines) && selectedDisplay == old(selectedDisplay)
      ensures filteredLines == old(filteredLines) && CarriersKept() && Synced() == old(Synced())
    {
      showLineDropdown := true;
    }

    /** `handleCompanyInputChange`. */
    method CompanyInputChange(text: string)
      modifies this`companySearchInput, this`showCompanyDropdown
      ensures companySearchInput == text && showCompanyDropdown
      ensures form == old(form) && companies == old(companies) && filteredCompanies == old(filteredCompanies)
      ensures selectedCompanyDisplay == old(selectedCompanyDisplay) && LinesKept() && Synced() == old(Synced())
    {
      companySearchInput := text;
      showCompanyDropdown := true;
    }

    /** `handleCompanyInputFocus`. */
    method CompanyInputFocus()
      modifies this`showCompanyDropdown
      ensures showCompanyDropdown && companySearchInput == old(companySearchInput)
      ensures form == old(form) && companies == old(companies) && filteredCompanies == old(filteredCompanies)
      ensures selectedCompanyDisplay == old(selectedCompanyDisplay) && LinesKept() && Synced() == old(Synced())
    {
      showCompanyDropdown := true;
    }

    /** `handleShippingLineClick`: flip one line and write the selection into the form and the display. */
    method LineClick(id: int)
      modifies this`shippingLines, this`form, this`selectedDisplay
      ensures shippingLines == ToggleLine(old(shippingLines), id)
      ensures form == old(form).(line := LineText(shippingLines))
      ensures Synced()
      ensures searchInput == old(searchInput) && showLineDropdown == old(showLineDropdown)
      ensures filteredLines == old(filteredLines) && CarriersKept()
    {
      shippingLines := ToggleLine(shippingLines, id);
      var names := SelectedNames(shippingLines);
      form := form.(line := Join(names, ','));
      selectedDisplay := JoinWith(names, ", ");
    }

    /** `handleCompanyClick`: a single choice, which closes the dropdown. */
    method CompanyClick(company: ShippingCompany)
      modifies this`form, this`selectedCompanyDisplay, this`showCompanyDropdown
      ensures form == old(form).(shippingCompany := company.code)
      ensures selectedCompanyDisplay == company.code + " | " + company.name && !showCompanyDropdown
      ensures companies == old(companies) && companySearchInput == old(companySearchInput)
      ensures filteredCompanies == old(filteredCompanies) && LinesKept() && Synced() == old(Synced())
    {
      form := form.(shippingCompany := company.code);
      selectedCompanyDisplay := company.code + " | " + company.name;
      showCompanyDropdown := false;
    }

    /**
     * The save button: the browser runs `handleSubmit` only on a form that
     * passes its checks, and `handleSubmit` hands that form to the table as it is.
     */
    method Submit() returns (saved: Option<Appointment>)
      ensures saved.Some? <==> Submittable(form)
      ensures saved.Some? ==> saved.value == form
    {
      if Submittable(form) {
        saved := Some(form);
      } else {
        saved := None;
      }
    }
  }

  /** After clearing, no line is selected and both texts are empty. */
  lemma NoLineLeftSelected(lines: seq<ShippingLine>)
    ensures SelectedNames(Unselected(lines)) == []
    ensures LineText(Unselected(lines)) == "" && LineDisplay(Unselected(lines)) == ""
  {
    var r := Unselected(lines);
    forall l | l in r ensures !IsChosen(l) {
      var i :| 0 <= i < |r| && r[i] == l;
    }
    FilterNonePass(IsChosen, r);
  }
}
