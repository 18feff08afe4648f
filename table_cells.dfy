/**
 * The text a table cell shows for one record and one column key, and the
 * shipping-company label.
 */
module TableCells {
  import opened Options
  import opened Strings
  import opened Dates
  import opened Appointments

  /** Carrier codes and their Chinese names. */
  const CompanyNames: map<string, string> := map[
    "MSC" := "地中海",
    "COSCO" := "中远海运",
    "OOCL" := "东方海外",
    "CMA" := "达飞轮船",
    "ONE" := "海洋网联",
    "HAPAG" := "赫伯罗特",
    "ZIM" := "以星航运",
    "MAERSK" := "马士基",
    "EVERGREEN" := "长荣海运",
    "YANGMING" := "阳明海运"
  ]

  /** `shippingCompanyNames[code] || code`. */
  function CompanyName(code: string): (name: string)
    ensures code in CompanyNames ==> name == CompanyNames[code]
    ensures code !in CompanyNames ==> name == code
  {
    if code in CompanyNames && CompanyNames[code] != "" then CompanyNames[code] else code
  }

  /** `formatShippingCompany`: the code, a bar, and the name; the code can be read back from it whenever it holds no bar. */
  function FormatShippingCompany(code: string): (shown: string)
    ensures '|' !in code ==> CodeOfLabel(shown) == code
  {
    var shown := code + " | " + CompanyName(code);
    if '|' in code then shown
    else
      CodeBeforeBar(code, CompanyName(code));
      shown
  }

  /** Reads the carrier code back from a label: the text before the first bar, less its trailing space. */
  function CodeOfLabel(s: string): string {
    var p := Split(s, '|')[0];
    if |p| > 0 && p[|p| - 1] == ' ' then p[..|p| - 1] else p
  }

  /** The text before ` | ` is read back, whatever name follows. */
  lemma CodeBeforeBar(code: string, name: string)
    requires '|' !in code
    ensures CodeOfLabel(code + " | " + name) == code
  {
    var head := code + " ";
    var tail := " " + name;
    assert code + " | " + name == head + ['|'] + tail;
    assert '|' !in head by {
      forall k | 0 <= k < |head| ensures head[k] != '|' {
        if k < |code| {
          assert head[k] == code[k];
        }
      }
    }
    SplitFirstPiece(head, '|', tail);
    assert head[..|head| - 1] == code;
  }

  /** The column keys `renderCellContent` knows. */
  const CellKeys: set<string> := {
    "id", "line", "shippingCompany", "priceNature", "isNAC", "nac",
    "applicableProducts", "mqc", "cabinProtection", "validPeriod", "isActivated"
  }

  /** `renderCellContent`: the text one column shows for one record. */
  function CellText(a: Appointment, key: string): (t: string)
    ensures key !in CellKeys ==> t == ""
    ensures key == "nac" && a.isNAC != Some(true) ==> t == ""
    ensures key == "isNAC" ==> t in {"", "是", "否"}
    ensures key == "isActivated" ==> t in {"是", "否"}
  {
    if key == "id" then a.id
    else if key == "line" then a.line
    else if key == "shippingCompany" then FormatShippingCompany(a.shippingCompany)
    else if key == "priceNature" then a.priceNature
    else if key == "isNAC" then
      (match a.isNAC case None => "" case Some(b) => if b then "是" else "否")
    else if key == "nac" then (if a.isNAC == Some(true) then a.nac else "")
    else if key == "applicableProducts" then
      (match a.applicableProducts
        case None => ""
        case Some(p) => if p == "其他" then "其他 (" + a.customProduct + ")" else p)
    else if key == "mqc" then a.mqc
    else if key == "cabinProtection" then
      (match a.cabinProtection
        case None => ""
        case Some(p) =>
          if p == "有" && a.cabinProtectionValue != "" && a.cabinProtectionUnit != ""
          then "有 (" + a.cabinProtectionValue + " " + a.cabinProtectionUnit + ")"
          else p)
    else if key == "validPeriod" then ValidPeriodText(a.validFrom, a.validTo)
    else if key == "isActivated" then (if a.isActivated then "是" else "否")
    else ""
  }

  /** The validity column: `from 至 to`, `from 起`, `至 to`, or nothing. */
  function ValidPeriodText(from: string, to: string): (t: string)
    ensures t == "" <==> from == "" && to == ""
    ensures from != "" ==> from <= t
    ensures to != "" ==> |to| < |t| && t[|t| - |to|..] == to
  {
    if from != "" && to != "" then from + " 至 " + to
    else if from != "" then from + " 起"
    else if to != "" then "至 " + to
    else ""
  }

  /** A period of two written days shows both, and each can be read back from the cell. */
  lemma ValidPeriodReadsBack(from: Day, to: Day)
    ensures var t := ValidPeriodText(Format(from), Format(to));
      |t| == 23 && ParseDate(t[..10]) == Some(from) && ParseDate(t[13..]) == Some(to)
  {
    var t := ValidPeriodText(Format(from), Format(to));
    assert t[..10] == Format(from);
    assert t[13..] == Format(to);
    ParseFormat(from);
    ParseFormat(to);
  }

  /** A cabin protection shows its amount only when it is `有` with both a value and a unit. */
  lemma CabinProtectionShowsAmount(a: Appointment)
    requires a.cabinProtection.Some?
    ensures var t := CellText(a, "cabinProtection");
      (a.cabinProtection.value == "有" && a.cabinProtectionValue != "" && a.cabinProtectionUnit != "")
      <==> t != a.cabinProtection.value
  {
    var t := CellText(a, "cabinProtection");
    if a.cabinProtection.value == "有" && a.cabinProtectionValue != "" && a.cabinProtectionUnit != "" {
      assert |t| > |"有"|;
    }
  }
}
