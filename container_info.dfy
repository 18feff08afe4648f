/**
 * The container-info text of an inquiry, `q*type+q*type…`, and the list of
 * container groups the editor keeps beside it.
 */
module ContainerInfo {
  import opened Options
  import opened Strings
  import opened Seqs

  /** A quantity as the number input yields it: `parseInt` of an emptied input is NaN. */
  datatype Quantity = Num(n: int) | NaN

  /** One container group: a container type and how many of it. */
  datatype Group = Group(ctype: string, quantity: Quantity)

  /** The group a new row starts with, and what an empty text parses to. */
  const DefaultGroup: Group := Group("20GP", Num(1))

  /** `${quantity}`: NaN prints as `NaN`. */
  function QuantityText(q: Quantity): (s: string)
    ensures |s| >= 1 && '*' !in s && '+' !in s
  {
    match q
    case Num(n) =>
      var t := IntToString(n);
      assert forall k :: 0 <= k < |t| ==> t[k] != '*' && t[k] != '+';
      t
    case NaN => "NaN"
  }

  /** `${group.quantity}*${group.type}`. */
  function GroupText(g: Group): string {
    QuantityText(g.quantity) + "*" + g.ctype
  }

  function GroupTexts(groups: seq<Group>): (r: seq<string>)
    ensures |r| == |groups|
    ensures forall k :: 0 <= k < |groups| ==> r[k] == GroupText(groups[k])
  {
    Map(GroupText, groups)
  }

  /**
   * `updateContainerInfoString`'s text: the groups in order, joined by `+`.
   * No group's text holds a `+` of its own, so cutting the text at `+` gives
   * one piece per group.
   */
  function Serialise(groups: seq<Group>): (r: string)
    ensures groups == [] ==> r == ""
    ensures |groups| >= 1 && (forall k :: 0 <= k < |groups| ==> '+' !in groups[k].ctype) ==>
      Split(r, '+') == GroupTexts(groups)
  {
    SerialisedPieces(groups);
    Join(GroupTexts(groups), '+')
  }

  lemma SerialisedPieces(groups: seq<Group>)
    ensures |groups| >= 1 && (forall k :: 0 <= k < |groups| ==> '+' !in groups[k].ctype) ==>
      Split(Join(GroupTexts(groups), '+'), '+') == GroupTexts(groups)
  {
    var texts := GroupTexts(groups);
    if |groups| >= 1 && forall k :: 0 <= k < |groups| ==> '+' !in groups[k].ctype {
      forall k | 0 <= k < |texts| ensures '+' !in texts[k] {
        GroupTextHasNoPlus(groups[k]);
      }
      SplitJoin(texts, '+');
    }
  }

  /**
   * One `+`-separated part: the text before the first `*` is read with
   * `parseInt` (NaN becomes 1), the text between the first and second `*` is
   * the type (none, or an empty one, becomes `20GP`).
   */
  function ParsePart(part: string): (g: Group)
    ensures g.quantity.Num? && g.ctype != ""
  {
    var pieces := Split(part, '*');
    var quantityText := pieces[0];
    var ctype := if |pieces| > 1 then pieces[1] else "";
    var quantity := match ParseInt(quantityText) case Some(n) => n case None => 1;
    Group(if ctype == "" then "20GP" else ctype, Num(quantity))
  }

  /** `parseContainerInfo`. */
  function Parse(info: string): (groups: seq<Group>)
    ensures info == "" ==> groups == [DefaultGroup]
    ensures info != "" ==> |groups| == |Split(info, '+')|
    ensures info != "" ==> forall k :: 0 <= k < |groups| ==> groups[k] == ParsePart(Split(info, '+')[k])
    ensures |groups| >= 1
    ensures forall k :: 0 <= k < |groups| ==> groups[k].quantity.Num? && groups[k].ctype != ""
  {
    if info == "" then [DefaultGroup] else Map(ParsePart, Split(info, '+'))
  }

  /** The groups the round trip holds for: numeric quantities and non-empty types with no separator in them. */
  predicate WellFormed(g: Group) {
    g.quantity.Num? && g.ctype != "" && '*' !in g.ctype && '+' !in g.ctype
  }

  lemma ParseGroupText(g: Group)
    requires WellFormed(g)
    ensures ParsePart(GroupText(g)) == g
  {
    var q := QuantityText(g.quantity);
    assert GroupText(g) == q + ['*'] + g.ctype;
    SplitFirstPiece(q, '*', g.ctype);
    SplitWithoutSeparator(g.ctype, '*');
    ParseIntToString(g.quantity.n);
  }

  lemma GroupTextHasNoPlus(g: Group)
    requires '+' !in g.ctype
    ensures '+' !in GroupText(g) && GroupText(g) != ""
  {
    var q := QuantityText(g.quantity);
    assert GroupText(g) == q + "*" + g.ctype;
    forall k | 0 <= k < |GroupText(g)| ensures GroupText(g)[k] != '+' {
      if k < |q| {
        assert GroupText(g)[k] == q[k];
      } else if k > |q| {
        assert GroupText(g)[k] == g.ctype[k - |q| - 1];
      }
    }
  }

  /** Parsing the serialised groups gives the groups back. */
  lemma ParseSerialise(groups: seq<Group>)
    requires |groups| >= 1
    requires forall k :: 0 <= k < |groups| ==> WellFormed(groups[k])
    ensures Parse(Serialise(groups)) == groups
  {
    var texts := GroupTexts(groups);
    assert Split(Serialise(groups), '+') == texts;
    forall k | 0 <= k < |groups| ensures ParsePart(texts[k]) == groups[k] {
      ParseGroupText(groups[k]);
    }
  }

  /** A NaN quantity is written as `NaN` and read back as 1. */
  lemma NaNReadsBackAsOne(ctype: string)
    requires ctype != "" && '*' !in ctype && '+' !in ctype
    ensures Parse(Serialise([Group(ctype, NaN)])) == [Group(ctype, Num(1))]
  {
    var t := GroupText(Group(ctype, NaN));
    assert Serialise([Group(ctype, NaN)]) == t;
    GroupTextHasNoPlus(Group(ctype, NaN));
    SplitWithoutSeparator(t, '+');
    assert t == "NaN" + ['*'] + ctype;
    SplitFirstPiece("NaN", '*', ctype);
    SplitWithoutSeparator(ctype, '*');
    assert TrimStart("NaN") == "NaN";
    assert LeadingDigits("NaN") == [];
  }

  /** An empty part, as in `1*20GP+`, is the default group. */
  lemma EmptyPartIsDefault()
    ensures ParsePart("") == DefaultGroup
  {
    assert Split("", '*') == [""];
    assert LeadingDigits("") == [];
  }
}
