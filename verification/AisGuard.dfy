/** The form map, the requests of the form driver, and the guard every request passes before it
    leaves. */
module AisGuard {
  import opened Wrappers
  import opened Changes
  import opened AisForms
  import Texts

  // ---------------------------------------------------------------------------------------------
  // The form map
  // ---------------------------------------------------------------------------------------------

  datatype Layout = Grid | Header

  /** `key` maps an item's key field to the alias the forms use for it. */
  datatype FormMap = FormMap(application: string, version: string, workWith: string, revision: string,
                             layout: Layout, key: Fields, header: seq<string>, rowKey: seq<string>)

  const FORM_MAPS: map<string, FormMap> := map[
    "F0005" := FormMap("P0004A", "ZJDE0001", "W0004AA", "W0004AB", Grid,
                       [("DRSY", "SY"), ("DRRT", "RT"), ("DRKY", "KY")], ["DRSY", "DRRT"], ["DRKY"]),
    "F40039" := FormMap("P40040", "ZJDE0001", "W40040B", "W40040A", Header,
                        [("DCTO", "DCTO")], ["DCTO"], ["DCTO"]),
    "F40205" := FormMap("P40205", "ZJDE0001", "W40205B", "W40205A", Header,
                        [("LNTY", "LNTY")], ["LNTY"], ["LNTY"]),
    "F40203" := FormMap("P40204", "ZJDE0001", "W40204A", "W40204B", Grid,
                        [("DCTO", "DCTO"), ("LNTY", "LNTY"), ("LNST", "LNST")], ["DCTO", "LNTY"], ["LNST"])
  ]

  function Names(fields: Fields): set<string> {
    set f | f in fields :: f.0
  }

  /** The value of a named field; the first one where a name is given twice. */
  function Get(fields: Fields, name: string): string {
    if fields == [] then ""
    else if fields[0].0 == name then fields[0].1
    else Get(fields[1..], name)
  }

  /** The map that covers an item: a row of a mapped table, named by exactly the key the form works with. */
  function FormMapFor(content: Content): (r: Option<FormMap>)
    ensures r.Some? ==> content.Row? && Names(content.key) == Names(r.value.key)
  {
    if !content.Row? then None
    else
      var table := Texts.Upper(content.table);
      if table !in FORM_MAPS || Names(content.key) != Names(FORM_MAPS[table].key) then None
      else Some(FORM_MAPS[table])
  }

  function WorkWithForm(fm: FormMap): string {
    fm.application + "_" + fm.workWith
  }

  function RevisionForm(fm: FormMap): string {
    fm.application + "_" + fm.revision
  }

  function FormsOf(fm: FormMap): set<string> {
    {WorkWithForm(fm), RevisionForm(fm)}
  }

  // ---------------------------------------------------------------------------------------------
  // Requests
  // ---------------------------------------------------------------------------------------------

  /** A form action: a command on a control, or a change of the grid. Grid events are column and
      value. There is no action that deletes a row or calls a function, a report or an orchestration. */
  datatype Action =
    | SetControl(id: string, value: string)
    | SetQbe(id: string, value: string)
    | DoAction(id: string)
    | SelectRow(id: string)
    | InsertRow(events: Fields)
    | UpdateRow(row: string, events: Fields)

  datatype Request =
    | Open(formName: string, serviceAction: string, actions: seq<Action>)
    | Execute(formOid: string, actions: seq<Action>)
    | Close

  predicate EndsWith(s: string, suffix: string) {
    |suffix| <= |s| && s[|s| - |suffix|..] == suffix
  }

  predicate IsRowId(id: string) {
    "1." <= Line(id) && AllDigits(Line(id)[2..])
  }

  predicate EventsAllowed(events: Fields, allowedFields: set<string>) {
    forall e :: e in events ==> "g" + e.0 in allowedFields
  }

  predicate ActionAllowed(a: Action, allowedFields: set<string>, allowedButtons: set<string>) {
    match a
    case SetControl(id, _) => id in allowedFields
    case SetQbe(id, _) => id in allowedFields
    case DoAction(id) => id in allowedButtons
    case SelectRow(id) => IsRowId(id)
    case InsertRow(events) => EventsAllowed(events, allowedFields)
    case UpdateRow(_, events) => EventsAllowed(events, allowedFields)
  }

  /** The request is for one of the item's forms, and opens it read-only. */
  predicate OnForms(r: Request, forms: set<string>) {
    match r
    case Open(formName, serviceAction, _) => formName in forms && serviceAction == "R"
    case Execute(formOid, _) => exists f :: f in forms && EndsWith(f, "_" + formOid)
    case Close => true
  }

  function ActionsOf(r: Request): seq<Action> {
    if r.Close? then [] else r.actions
  }

  /** The last check before a request leaves. */
  predicate Guard(r: Request, allowedFields: set<string>, allowedButtons: set<string>, forms: set<string>) {
    OnForms(r, forms) && forall a :: a in ActionsOf(r) ==> ActionAllowed(a, allowedFields, allowedButtons)
  }
}
