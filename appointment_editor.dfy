/**
 * The inquiry editor: the form record, the container groups beside it, the
 * quote options, and the client-name search.
 *
 * The form is a JavaScript object whose fields are written by name
 * (`{...form, [name]: value}`), so it is modelled as a map from field names
 * to text; a missing key is `undefined`, which reads as `""` wherever the
 * editor tests a field for truthiness.
 */
module AppointmentEditor {
  import opened Options
  import opened Strings
  import opened Seqs
  import opened ContainerInfo

  type Form = map<string, string>

  /** A field's text, `""` when the key is absent. */
  function Text(form: Form, name: string): string {
    if name in form then form[name] else ""
  }

  const Direct := "直达"
  const TemporaryClient := "临时客户"
  const FormalClient := "正式客户"

  /** The ten formal clients the client-name dropdown offers. */
  const FormalClients: seq<string> := [
    "ACME CORPORATION",
    "GLOBEX INTERNATIONAL",
    "STARK INDUSTRIES",
    "WAYNE ENTERPRISES",
    "UMBRELLA CORPORATION",
    "CYBERDYNE SYSTEMS",
    "OSCORP INDUSTRIES",
    "MASSIVE DYNAMIC",
    "APERTURE SCIENCE",
    "WEYLAND-YUTANI CORP"
  ]

  /** The form a new inquiry starts with; the random id and the clock reading are parameters. */
  function NewForm(id: string, createTime: string): (form: Form)
    ensures Text(form, "id") == id && Text(form, "createTime") == createTime
    ensures Text(form, "routeType") == Direct && Text(form, "transitPort") == ""
    ensures Text(form, "clientType") == TemporaryClient && Text(form, "clientName") == ""
    ensures Text(form, "cargoReadyTimeType") == "range" && Text(form, "cargoReadyTime") == "二周内"
    ensures Text(form, "containerInfo") == ""
  {
    map[
      "id" := id, "inquirySource" := "内部", "inquiryPerson" := "张三",
      "headFreightStatus" := "待报价", "mainFreightStatus" := "待报价", "tailFreightStatus" := "待报价",
      "containerInfo" := "", "cargoReadyTime" := "二周内", "cargoReadyTimeType" := "range",
      "cargoNature" := "实单", "shippingCompany" := "", "routeType" := Direct,
      "loadingPort" := "", "dischargePort" := "", "transitPort" := "",
      "cargoName" := "", "remarks" := "", "clientType" := TemporaryClient, "clientName" := "",
      "createTime" := createTime
    ]
  }

  /** The form the editor opens before the loading effect runs (the mount-time state). */
  function MountForm(id: string, createTime: string): (form: Form)
    ensures Text(form, "id") == id && Text(form, "routeType") == Direct
    ensures Text(form, "cargoReadyTimeType") == "date" && "clientType" !in form
  {
    map[
      "id" := id, "inquirySource" := "内部", "inquiryPerson" := "",
      "headFreightStatus" := "待报价", "mainFreightStatus" := "待报价", "tailFreightStatus" := "待报价",
      "containerInfo" := "", "cargoReadyTime" := "", "cargoReadyTimeType" := "date",
      "cargoNature" := "实单", "shippingCompany" := "", "routeType" := Direct,
      "loadingPort" := "", "dischargePort" := "", "transitPort" := "",
      "cargoName" := "", "remarks" := "", "createTime" := createTime
    ]
  }

  /** The defaults the loading effect fills into an inquiry opened for editing. */
  function LoadedForm(appointment: Form): (form: Form)
    ensures Text(form, "cargoReadyTimeType") == OrElse(Text(appointment, "cargoReadyTimeType"), "range")
    ensures Text(form, "cargoReadyTime") == OrElse(Text(appointment, "cargoReadyTime"), "二周内")
    ensures Text(form, "clientType") == OrElse(Text(appointment, "clientType"), TemporaryClient)
    ensures Text(form, "clientName") == Text(appointment, "clientName")
    ensures forall k :: k !in {"cargoReadyTimeType", "cargoReadyTime", "clientType", "clientName"} ==>
      Text(form, k) == Text(appointment, k)
  {
    appointment[
      "cargoReadyTimeType" := OrElse(Text(appointment, "cargoReadyTimeType"), "range")][
      "cargoReadyTime" := OrElse(Text(appointment, "cargoReadyTime"), "二周内")][
      "clientType" := OrElse(Text(appointment, "clientType"), TemporaryClient)][
      "clientName" := Text(appointment, "clientName")]
  }

  /** Loading an inquiry that is already complete changes none of its fields. */
  lemma LoadingCompleteFormKeepsIt(appointment: Form)
    requires Text(appointment, "cargoReadyTimeType") != "" && Text(appointment, "cargoReadyTime") != ""
    requires Text(appointment, "clientType") != ""
    ensures forall k :: Text(LoadedForm(appointment), k) == Text(appointment, k)
  {
  }

  /** `handleChange`: set the named field; switching the route to `直达` also clears the transit port. */
  function Changed(form: Form, name: string, value: string): (r: Form)
    ensures Text(r, name) == value
    ensures name == "routeType" && value == Direct ==> Text(r, "transitPort") == ""
    ensures forall k :: k != name && !(k == "transitPort" && name == "routeType" && value == Direct) ==>
      Text(r, k) == Text(form, k)
  {
    if name == "routeType" && value == Direct then form[name := value]["transitPort" := ""]
    else form[name := value]
  }

  /** A transit port survives a route change only when the new route is not `直达`. */
  lemma TransitPortSurvivesOnlyTransit(form: Form, value: string)
    ensures Text(Changed(form, "routeType", value), "transitPort") == "" || value != Direct
    ensures value != Direct ==> Text(Changed(form, "routeType", value), "transitPort") == Text(form, "transitPort")
  {
  }

  /** The `clientType` select: the client name is kept only when the new type is `临时客户`. */
  function ClientTypeChanged(form: Form, newType: string): (r: Form)
    ensures Text(r, "clientType") == newType
    ensures Text(r, "clientName") == if newType == TemporaryClient then Text(form, "clientName") else ""
    ensures forall k :: k != "clientType" && k != "clientName" ==> Text(r, k) == Text(form, k)
  {
    form["clientType" := newType]["clientName" := if newType == TemporaryClient then Text(form, "clientName") else ""]
  }

  function ClientHit(term: string): string -> bool {
    (client: string) => Contains(Lower(client), Lower(term))
  }

  /** `handleClientNameSearch`'s list: every formal client for a blank term, else those containing it whatever the case. */
  function ClientSearch(term: string): (r: seq<string>)
    ensures IsBlank(term) ==> r == FormalClients
    ensures !IsBlank(term) ==> forall c :: c in r <==> c in FormalClients && Contains(Lower(c), Lower(term))
    ensures Subsequence(r, FormalClients)
  {
    if IsBlank(term) then
      SubsequenceOfItself(FormalClients);
      FormalClients
    else
      FilterSubsequence(ClientHit(term), FormalClients);
      Filter(ClientHit(term), FormalClients)
  }

  /** The client search does not depend on the case of the term. */
  lemma ClientSearchIgnoresCase(term: string)
    ensures ClientSearch(Lower(term)) == ClientSearch(term)
  {
    BlankIgnoresCase(term);
    if !IsBlank(term) {
      HitsIgnoreCase(FormalClients, term);
    }
  }

  lemma HitsIgnoreCase(clients: seq<string>, term: string)
    ensures Filter(ClientHit(Lower(term)), clients) == Filter(ClientHit(term), clients)
  {
    LowerIdempotent(term);
    FilterCongruent(ClientHit(Lower(term)), ClientHit(term), clients);
  }

  /** What `handleSubmit` does: an empty id is refused, anything else is saved as it is. */
  function Submit(form: Form): (saved: Option<Form>)
    ensures saved.None? <==> Text(form, "id") == ""
    ensures saved.Some? ==> saved.value == form
  {
    if Text(form, "id") == "" then None else Some(form)
  }

  class Editor {
    var form: Form
    var containerGroups: seq<Group>
    var prePortQuote: bool
    var mainlineQuote: bool
    var postPortQuote: bool
    var clientNameSearch: string
    var showClientDropdown: bool
    var filteredClients: seq<string>

    /** The main-line quote stays checked, and there is always at least one container group. */
    ghost predicate Valid()
      reads this
    {
      mainlineQuote && |containerGroups| >= 1
    }

    /** The form's container text describes the groups row for row. */
    ghost predicate Synced()
      reads this
    {
      Text(form, "containerInfo") == Serialise(containerGroups)
    }

    constructor(id: string, createTime: string)
      ensures form == MountForm(id, createTime) && containerGroups == [DefaultGroup]
      ensures prePortQuote && mainlineQuote && postPortQuote
      ensures clientNameSearch == "" && !showClientDropdown && filteredClients == FormalClients
      ensures Valid()
    {
      form := MountForm(id, createTime);
      containerGroups := [DefaultGroup];
      prePortQuote, mainlineQuote, postPortQuote := true, true, true;
      clientNameSearch := "";
      showClientDropdown := false;
      filteredClients := FormalClients;
    }

    /** The three quote checkboxes are as they were. */
    twostate predicate QuotesKept()
      reads this
    {
      prePortQuote == old(prePortQuote) && mainlineQuote == old(mainlineQuote) && postPortQuote == old(postPortQuote)
    }

    /** The client-name search text, its dropdown flag and its hits are as they were. */
    twostate predicate ClientSearchKept()
      reads this
    {
      clientNameSearch == old(clientNameSearch) && showClientDropdown == old(showClientDropdown)
      && filteredClients == old(filteredClients)
    }

    /**
     * The loading effect: an inquiry opened for editing gets its defaults and,
     * when it has container text, its groups parsed from it; a new inquiry
     * gets a fresh form and a single default group; with neither nothing changes.
     */
    method Load(appointment: Option<Form>, isAdd: bool, id: string, createTime: string)
      requires Valid()
      modifies this`form, this`containerGroups, this`clientNameSearch
      ensures appointment.Some? ==>
        form == LoadedForm(appointment.value)
        && containerGroups == (if Text(appointment.value, "containerInfo") != ""
                               then Parse(Text(appointment.value, "containerInfo")) else old(containerGroups))
        && clientNameSearch == (if Text(form, "clientType") == FormalClient && Text(form, "clientName") != ""
                                then Text(form, "clientName") else old(clientNameSearch))
      ensures appointment.None? && isAdd ==> form == NewForm(id, createTime) && containerGroups == [DefaultGroup]
      ensures appointment.None? && !isAdd ==> form == old(form) && containerGroups == old(containerGroups)
      ensures appointment.None? ==> clientNameSearch == old(clientNameSearch)
      ensures QuotesKept() && showClientDropdown == old(showClientDropdown) && filteredClients == old(filteredClients)
      ensures Valid()
    {
      match appointment {
        case Some(a) => Open(a);
        case None =>
          if isAdd {
            form := NewForm(id, createTime);
            containerGroups := [DefaultGroup];
          }
      }
    }

    /** The editing half of the loading effect. */
    method Open(a: Form)
      requires Valid()
      modifies this`form, this`containerGroups, this`clientNameSearch
      ensures form == LoadedForm(a)
      ensures containerGroups == if Text(a, "containerInfo") != "" then Parse(Text(a, "containerInfo")) else old(containerGroups)
      ensures clientNameSearch == if Text(form, "clientType") == FormalClient && Text(form, "clientName") != ""
                                  then Text(form, "clientName") else old(clientNameSearch)
      ensures QuotesKept() && showClientDropdown == old(showClientDropdown) && filteredClients == old(filteredClients)
      ensures Valid()
    {
      var updated := LoadedForm(a);
      var info := Text(a, "containerInfo");
      form := updated;
      if Text(updated, "clientType") == FormalClient && Text(updated, "clientName") != "" {
        clientNameSearch := Text(updated, "clientName");
      }
      if info != "" {
        containerGroups := Parse(info);
      }
    }

    /** `handleChange`. */
    method Change(name: string, value: string)
      modifies this`form
      ensures form == Changed(old(form), name, value)
      ensures containerGroups == old(containerGroups) && QuotesKept() && ClientSearchKept()
      ensures Valid() == old(Valid())
    {
      form := Changed(form, name, value);
    }

    /** `handleClearInput`. */
    method ClearInput(name: string)
      modifies this`form
      ensures form == old(form)[name := ""]
      ensures Text(form, name) == "" && forall k :: k != name ==> Text(form, k) == Text(old(form), k)
      ensures containerGroups == old(containerGroups) && QuotesKept() && ClientSearchKept()
      ensures Valid() == old(Valid())
    {
      form := form[name := ""];
    }

    /** The `clientType` select. */
    method ChangeClientType(newType: string)
      modifies this`form
      ensures form == ClientTypeChanged(old(form), newType)
      ensures containerGroups == old(containerGroups) && QuotesKept() && ClientSearchKept()
      ensures Valid() == old(Valid())
    {
      form := ClientTypeChanged(form, newType);
    }

    /** The two `cargoReadyTimeType` radios: choosing a range also resets the time to `二周内`. */
    method ChooseReadyTimeType(range: bool)
      modifies this`form
      ensures range ==> form == old(form)["cargoReadyTimeType" := "range"]["cargoReadyTime" := "二周内"]
      ensures !range ==> form == old(form)["cargoReadyTimeType" := "date"]
      ensures containerGroups == old(containerGroups) && QuotesKept() && ClientSearchKept()
      ensures Valid() == old(Valid())
    {
      if range {
        form := form["cargoReadyTimeType" := "range"]["cargoReadyTime" := "二周内"];
      } else {
        form := form["cargoReadyTimeType" := "date"];
      }
    }

    /** The pre-port and post-port checkboxes; the main-line one is disabled. */
    method SetQuoteOptions(prePort: bool, postPort: bool)
      requires Valid()
      modifies this`prePortQuote, this`postPortQuote
      ensures prePortQuote == prePort && postPortQuote == postPort
      ensures mainlineQuote == old(mainlineQuote) && Valid()
      ensures form == old(form) && containerGroups == old(containerGroups) && ClientSearchKept()
    {
      prePortQuote := prePort;
      postPortQuote := postPort;
    }

    /** `handleClientNameSearch`. */
    method SearchClient(term: string)
      modifies this`clientNameSearch, this`filteredClients
      ensures clientNameSearch == term && filteredClients == ClientSearch(term)
      ensures showClientDropdown == old(showClientDropdown)
      ensures form == old(form) && containerGroups == old(containerGroups) && QuotesKept()
      ensures Valid() == old(Valid())
    {
      clientNameSearch := term;
      filteredClients := ClientSearch(term);
    }

    /** Focusing the client-name input opens the dropdown. */
    method FocusClientSearch()
      modifies this`showClientDropdown
      ensures showClientDropdown
      ensures clientNameSearch == old(clientNameSearch) && filteredClients == old(filteredClients)
      ensures form == old(form) && containerGroups == old(containerGroups) && QuotesKept()
      ensures Valid() == old(Valid())
    {
      showClientDropdown := true;
    }

    /** `handleSelectClient`. */
    method SelectClient(client: string)
      modifies this`form, this`clientNameSearch, this`showClientDropdown
      ensures form == old(form)["clientName" := client] && clientNameSearch == client && !showClientDropdown
      ensures filteredClients == old(filteredClients)
      ensures containerGroups == old(containerGroups) && QuotesKept()
      ensures Valid() == old(Valid())
    {
      form := form["clientName" := client];
      clientNameSearch := client;
      showClientDropdown := false;
    }

    /** `updateContainerInfoString`: write the groups' text into the form. */
    method UpdateContainerInfo()
      modifies this`form
      ensures form == old(form)["containerInfo" := Serialise(containerGroups)]
      ensures Synced()
      ensures containerGroups == old(containerGroups) && QuotesKept() && ClientSearchKept()
      ensures Valid() == old(Valid())
    {
      form := form["containerInfo" := Serialise(containerGroups)];
    }

    /** `handleContainerTypeChange`. */
    method ChangeContainerType(index: int, value: string)
      requires 0 <= index < |containerGroups|
      modifies this`containerGroups, this`form
      ensures containerGroups == old(containerGroups)[index := old(containerGroups)[index].(ctype := value)]
      ensures form == old(form)["containerInfo" := Serialise(containerGroups)]
      ensures Synced() && |containerGroups| == |old(containerGroups)|
      ensures QuotesKept() && ClientSearchKept()
      ensures Valid() == old(Valid())
    {
      containerGroups := containerGroups[index := containerGroups[index].(ctype := value)];
      UpdateContainerInfo();
    }

    /** `handleContainerQuantityChange`; the input passes `parseInt` of its text, which may be NaN. */
    method ChangeContainerQuantity(index: int, value: Quantity)
      requires 0 <= index < |containerGroups|
      modifies this`containerGroups, this`form
      ensures containerGroups == old(containerGroups)[index := old(containerGroups)[index].(quantity := value)]
      ensures form == old(form)["containerInfo" := Serialise(containerGroups)]
      ensures Synced() && |containerGroups| == |old(containerGroups)|
      ensures QuotesKept() && ClientSearchKept()
      ensures Valid() == old(Valid())
    {
      containerGroups := containerGroups[index := containerGroups[index].(quantity := value)];
      UpdateContainerInfo();
    }

    /** `addContainerGroup`: a default group is appended only below five groups, and the text is not rewritten. */
    method AddContainerGroup()
      requires Valid()
      modifies this`containerGroups
      ensures old(|containerGroups|) < 5 ==> containerGroups == old(containerGroups) + [DefaultGroup]
      ensures old(|containerGroups|) >= 5 ==> containerGroups == old(containerGroups)
      ensures old(|containerGroups|) <= 5 ==> |containerGroups| <= 5
      ensures form == old(form) && QuotesKept() && ClientSearchKept() && Valid()
    {
      if |containerGroups| < 5 {
        containerGroups := containerGroups + [DefaultGroup];
      }
    }

    /** `removeContainerGroup`: the group at `index` is dropped only while more than one is left. */
    method RemoveContainerGroup(index: int)
      requires Valid()
      modifies this`containerGroups, this`form
      ensures old(|containerGroups|) > 1 ==>
        containerGroups == Without(old(containerGroups), index)
        && form == old(form)["containerInfo" := Serialise(containerGroups)] && Synced()
      ensures old(|containerGroups|) <= 1 ==> containerGroups == old(containerGroups) && form == old(form)
      ensures QuotesKept() && ClientSearchKept() && Valid()
    {
      if |containerGroups| > 1 {
        containerGroups := Without(containerGroups, index);
        UpdateContainerInfo();
      }
    }

    /** `handleSubmit`. */
    method SubmitForm() returns (saved: Option<Form>)
      ensures saved == Submit(form)
    {
      if Text(form, "id") == "" {
        saved := None;
      } else {
        saved := Some(form);
      }
    }
  }

  /** `groups.filter((_, i) => i !== index)`: an index off the list removes nothing. */
  function Without<T>(s: seq<T>, index: int): (r: seq<T>)
    ensures 0 <= index < |s| ==> r == s[..index] + s[index + 1..] && |r| == |s| - 1
    ensures !(0 <= index < |s|) ==> r == s
  {
    if 0 <= index < |s| then s[..index] + s[index + 1..] else s
  }

  /** Adding a group leaves the container text behind: it no longer describes the groups. */
  lemma AddLeavesTextStale(groups: seq<Group>)
    requires |groups| >= 1
    ensures Serialise(groups + [DefaultGroup]) == Serialise(groups) + "+" + GroupText(DefaultGroup)
    ensures Serialise(groups + [DefaultGroup]) != Serialise(groups)
  {
    assert GroupTexts(groups + [DefaultGroup]) == GroupTexts(groups) + [GroupText(DefaultGroup)];
    JoinAppend(GroupTexts(groups), GroupText(DefaultGroup), '+');
  }
}
