/** Two forms on which a driven item goes wrong: one reports Find and OK as one control, one has a single
    control for two of the item's fields. */
module AisCases {
  import opened Wrappers
  import opened Changes
  import opened AisForms
  import opened AisGuard
  import opened AisPlan
  import opened AisDriver
  import ConfigItems
  import Targets
  import Texts

  const DOCUMENT_TYPES := FormMap("P40040", "ZJDE0001", "W40040B", "W40040A", Header,
                                  [("DCTO", "DCTO")], ["DCTO"], ["DCTO"])

  /** A new document type, with one value. */
  function AddedType(dcto: string, alias: string, value: string): Content {
    Row("F40039", [("DCTO", dcto)], Add, [(alias, value)])
  }

  /** A form with one control for DCTO in the header and one in the grid, no rows, and these buttons. */
  function TypeForm(controls: seq<Control>): Body {
    Body([], [Entry("z_DCTO_5", true, None)], ["z_DCTO_7"], [], Some(controls))
  }

  lemma {:induction false} UpperIsKept(s: string)
    requires ConfigItems.AllUpperOrDigits(s)
    ensures Texts.Upper(s) == s
  {
    if s != "" {
      UpperIsKept(s[1..]);
      assert s == [s[0]] + s[1..];
    }
  }

  lemma StripIsKept(s: string)
    requires ConfigItems.AllUpperOrDigits(s)
    ensures Texts.Strip(s) == s
  {
  }

  lemma MapOfTypes()
    ensures "F40039" in FORM_MAPS && FORM_MAPS["F40039"] == DOCUMENT_TYPES
  {
    assert "F40039"[3] != "F40205"[3] && "F40039"[3] != "F40203"[3];
  }

  lemma AddedTypeIsMapped(dcto: string, alias: string, value: string)
    ensures FormMapFor(AddedType(dcto, alias, value)) == Some(DOCUMENT_TYPES)
  {
    UpperIsKept("F40039");
    MapOfTypes();
    assert Names([("DCTO", dcto)]) == {"DCTO"} == Names([("DCTO", "DCTO")]);
  }

  lemma OneControl(pair: (string, string))
    ensures Collected([pair]) == map[pair.0 := [pair.1]]
  {
    assert [pair][..0] == [];
    assert Collected([]) == map[] && [] + [pair.1] == [pair.1];
  }

  lemma OneField(key: string, alias: string, number: string)
    requires IsKey(Line(key), alias, number)
    ensures Collected(FieldKeys([Entry(key, true, None)])) == map[alias := [number]]
    ensures ShownValues([Entry(key, true, None)]) == map[alias := None]
  {
    KeysAreReadExactly(key, alias, number);
    assert [Entry(key, true, None)][..0] == [];
    assert FieldKeys([Entry(key, true, None)]) == [(alias, number)];
    OneControl((alias, number));
  }

  lemma OneColumn(key: string, alias: string, number: string)
    requires IsKey(Line(key), alias, number)
    ensures Collected(ControlKeys([key])) == map[alias := [number]]
  {
    KeysAreReadExactly(key, alias, number);
    assert [key][..0] == [];
    assert ControlKeys([key]) == [(alias, number)];
    OneControl((alias, number));
  }

  lemma KeysAreKeys()
    ensures IsKey(Line("z_DCTO_5"), "DCTO", "5") && IsKey(Line("z_DCTO_7"), "DCTO", "7")
  {
    assert "z_" + "DCTO" + "_" + "5" == "z_DCTO_5" && "z_" + "DCTO" + "_" + "7" == "z_DCTO_7";
  }

  lemma TypeFormRead(name: string, controls: seq<Control>)
    ensures var form := FormOf(name, TypeForm(controls));
            form == Form(name, map["DCTO" := ["5"]], map["DCTO" := ["7"]], Titled(controls), true, [], [], map["DCTO" := None])
  {
    KeysAreKeys();
    OneField("z_DCTO_5", "DCTO", "5");
    OneColumn("z_DCTO_7", "DCTO", "7");
  }

  // ---------------------------------------------------------------------------------------------
  // Find is OK
  // ---------------------------------------------------------------------------------------------

  const FIND_IS_OK := [Control(Some("12"), "Find"), Control(Some("12"), "OK")]

  /** Whatever it is asked, this server answers with the Work With form, and reports one control as Find
      and as OK. */
  const ONE_FORM: Server := trace => Answered(true, Some([("P40040_W40040B", TypeForm(FIND_IS_OK))]))

  lemma {:induction false} OidOf(application: string, form: string)
    requires '_' !in application
    ensures Oid(application + "_" + form) == form
  {
    var name := application + "_" + form;
    if application != "" {
      OidOf(application[1..], form);
      assert name[1..] == application[1..] + "_" + form && name[0] == application[0];
      OidOfRest(name);
    }
  }

  lemma OidOfRest(name: string)
    requires name != "" && name[0] != '_' && '_' in name
    ensures Oid(name) == Oid(name[1..])
  {
    var i := FirstUnderscore(name[1..]);
    UnderscoreIsFound(name[1..]);
    assert name[1..][i + 1..] == name[i + 2..];
  }

  lemma {:induction false} UnderscoreIsFound(s: string)
    requires '_' in s
    ensures FirstUnderscore(s) < |s|
  {
    if s[0] != '_' {
      UnderscoreIsFound(s[1..]);
    }
  }

  function TitledAs(c: Control, title: string): seq<string> {
    if c.id.Some? && LettersOnly(c.title) == title then [c.id.value] else []
  }

  lemma TwoControls(a: Control, b: Control, title: string)
    ensures IdsAt(Titled([a, b]), title) == TitledAs(a, title) + TitledAs(b, title)
  {
    TitledHolds([a, b], title);
    assert [a, b][..1] == [a] && [a][..0] == [];
    assert ControlsTitled([a], title) == TitledAs(a, title);
  }

  lemma ButtonsOfOneForm()
    ensures var buttons := Titled(FIND_IS_OK);
            IdsAt(buttons, "find") == ["12"] && IdsAt(buttons, "ok") == ["12"] && IdsAt(buttons, "add") == []
  {
    TitlesRead();
    assert "find"[0] != "ok"[0] && "find"[0] != "add"[0] && "ok"[0] != "add"[0];
    TwoControls(FIND_IS_OK[0], FIND_IS_OK[1], "find");
    TwoControls(FIND_IS_OK[0], FIND_IS_OK[1], "ok");
    TwoControls(FIND_IS_OK[0], FIND_IS_OK[1], "add");
  }

  lemma TypeResolves(pairs: Fields)
    requires forall i :: 0 <= i < |pairs| ==> pairs[i].0 == "DCTO"
    ensures AllResolve(map["DCTO" := ["5"]], pairs) && AllResolve(map["DCTO" := ["7"]], pairs)
  {
  }

  lemma TypeQuery(ww: Form, content: Content)
    requires content.Row? && ww.fields == map["DCTO" := ["5"]] && ww.columns == map["DCTO" := ["7"]]
    requires ButtonId(ww, "Find").Done?
    ensures QueryOf(ww, content, DOCUMENT_TYPES).Done?
    ensures QueryOf(ww, content, DOCUMENT_TYPES).value.Execute?
    ensures QueryOf(ww, content, DOCUMENT_TYPES).value.formOid == Oid(ww.name)
  {
    TypeResolves(KeyPairs(DOCUMENT_TYPES, content.key, ["DCTO"]));
  }

  lemma EndsWithRest(s: string, rest: string)
    ensures EndsWith(s + rest, rest)
  {
  }

  /** A request on one of the item's forms that selects no row can be sent. */
  lemma SendsOn(r: Request, fm: FormMap)
    requires r.Execute? && r.formOid in {fm.workWith, fm.revision} && forall a :: a in r.actions ==> !a.SelectRow?
    ensures Sendable(r, FormsOf(fm))
  {
    EndsWithRest(fm.application, "_" + r.formOid);
    var name := fm.application + "_" + r.formOid;
    assert name == fm.application + ("_" + r.formOid);
    assert name in FormsOf(fm) && EndsWith(name, "_" + r.formOid);
  }

  lemma SearchSelectsNothing(ww: Form, content: Content, fm: FormMap)
    requires content.Row? && QueryOf(ww, content, fm).Done?
    ensures var r := QueryOf(ww, content, fm).value;
            r.Execute? && r.formOid == Oid(ww.name) && forall a :: a in r.actions ==> !a.SelectRow?
  {
  }

  lemma HeaderSelectsNothing(rev: Form, content: Content, fm: FormMap)
    requires content.Row? && SavingOf(rev, content, fm).Done? && fm.layout == Header
    ensures var r := SavingOf(rev, content, fm).value;
            r.Execute? && r.formOid == Oid(rev.name) && forall a :: a in r.actions ==> !a.SelectRow?
  {
  }

  lemma TypeSends(ww: Form, content: Content)
    requires content.Row? && QueryOf(ww, content, DOCUMENT_TYPES).Done? && Oid(ww.name) == "W40040B"
    ensures Sendable(QueryOf(ww, content, DOCUMENT_TYPES).value, FormsOf(DOCUMENT_TYPES))
  {
    SearchSelectsNothing(ww, content, DOCUMENT_TYPES);
    SendsOn(QueryOf(ww, content, DOCUMENT_TYPES).value, DOCUMENT_TYPES);
  }

  const ONE_FORM_READ: Form := FormOf("P40040_W40040B", TypeForm(FIND_IS_OK))

  lemma OneFormRead()
    ensures ONE_FORM_READ.name == "P40040_W40040B" && ONE_FORM_READ.rows == [] && ONE_FORM_READ.errors == []
    ensures ONE_FORM_READ.fields == map["DCTO" := ["5"]] && ONE_FORM_READ.columns == map["DCTO" := ["7"]]
    ensures ONE_FORM_READ.buttonsReported && ONE_FORM_READ.buttons == Titled(FIND_IS_OK)
  {
    TypeFormRead("P40040_W40040B", FIND_IS_OK);
  }

  lemma OneFormButtons(form: Form)
    requires form.buttonsReported && form.buttons == Titled(FIND_IS_OK)
    ensures SharesOk(form, "find") && ButtonId(form, "Find").Done? && ButtonId(form, "Add") == Stopped(NotSent)
  {
    ButtonsOfOneForm();
    TitlesRead();
  }

  lemma OneFormName()
    ensures Oid("P40040_W40040B") == "W40040B"
  {
    OidOf("P40040", "W40040B");
    assert "P40040" + "_" + "W40040B" == "P40040_W40040B";
  }

  lemma NoWayOn(form: Form, content: Content, fm: FormMap)
    requires content.Row? && content.action == Add && form.rows == [] && ButtonId(form, "Add") == Stopped(NotSent)
    ensures WayOf(form, content, fm) == Stopped(NotSent)
  {
  }

  lemma OneFormIsAsked(content: Content)
    requires content.Row? && content.action == Add
    ensures var ww, fm := ONE_FORM_READ, DOCUMENT_TYPES;
            && SharesOk(ww, "find") && QueryOf(ww, content, fm).Done?
            && Sendable(QueryOf(ww, content, fm).value, FormsOf(fm)) && WayOf(ww, content, fm) == Stopped(NotSent)
  {
    OneFormRead();
    OneFormButtons(ONE_FORM_READ);
    OneFormName();
    TypeQuery(ONE_FORM_READ, content);
    TypeSends(ONE_FORM_READ, content);
    NoWayOn(ONE_FORM_READ, content, DOCUMENT_TYPES);
  }

  /** A server that always answers with one form, on which the item cannot go on. */
  lemma Stuck(server: Server, content: Content, fm: FormMap, ww: Form)
    requires FormMapFor(content) == Some(fm) && (forall trace :: Reply(server, trace) == Done(ww))
    requires SharesOk(ww, "find") && QueryOf(ww, content, fm).Done?
    requires Sendable(QueryOf(ww, content, fm).value, FormsOf(fm)) && WayOf(ww, content, fm) == Stopped(NotSent)
    ensures var c := Applied(server, Connected, content);
            c.result == Stopped(NotSent) && |c.trace| >= 2 && PressesOk(c.trace[1])
  {
    StoppedAfterOk(server, content, ww);
  }

  lemma AlwaysOneForm(trace: seq<Dispatch>)
    ensures Reply(ONE_FORM, trace) == Done(ONE_FORM_READ)
  {
  }

  /** Every added document type is reported as not sent by this server, and OK was pressed: the search
      pressed it as Find. `AddedTypeIsMapped` gives such items. */
  lemma NotSentAndPressed(content: Content)
    requires content.Row? && content.action == Add && FormMapFor(content) == Some(DOCUMENT_TYPES)
    ensures var c := Applied(ONE_FORM, Connected, content);
            c.result == Stopped(NotSent) && |c.trace| >= 2 && PressesOk(c.trace[1])
  {
    OneFormIsAsked(content);
    forall trace ensures Reply(ONE_FORM, trace) == Done(ONE_FORM_READ) {
      AlwaysOneForm(trace);
    }
    Stuck(ONE_FORM, content, DOCUMENT_TYPES, ONE_FORM_READ);
  }

  // ---------------------------------------------------------------------------------------------
  // One control, two fields
  // ---------------------------------------------------------------------------------------------

  /** A new document type as it is proposed, with a value for an alias that ends like the key's. */
  function ProposedType(dcto: string, value: string): ConfigItems.RawItem {
    ConfigItems.RawItem(map["action" := "ADD", "table" := "F40039"], [("DCTO", dcto)], [("XXDCTO", value)],
                        ConfigItems.Rule(Some(ConfigItems.SetupKind), {}))
  }

  lemma AliasIsKept(alias: string)
    requires ConfigItems.AllUpperOrDigits(alias)
    ensures ConfigItems.AliasOf(alias) == alias
  {
    UpperIsKept(alias);
    StripIsKept(alias);
  }

  lemma OneIsHeld(alias: string, value: string)
    requires ConfigItems.AllUpperOrDigits(alias)
    ensures ConfigItems.Holds([(alias, value)], [(alias, value)])
  {
    AliasIsKept(alias);
    var raw := [(alias, value)];
    assert raw[..0] == [];
    forall a | ConfigItems.LastValue(raw, a).Some? ensures raw[0].0 == a {
      ConfigItems.LastIsProposed(raw, a);
    }
  }

  lemma OneIsAccepted(alias: string, value: string, limit: nat)
    requires ConfigItems.IsAlias(alias) && |value| <= 200 && limit > 0
    ensures ConfigItems.FieldsAccepted([(alias, value)], None, limit)
  {
    AliasIsKept(alias);
  }

  lemma TextIsKept(raw: ConfigItems.RawItem, name: string, text: string)
    requires name in raw.text && raw.text[name] == text && text != "" && |text| <= 10
    requires ConfigItems.AllUpperOrDigits(text)
    ensures Texts.Upper(ConfigItems.Given(raw, name)) == text && ConfigItems.UpperText(raw, name, 10) == Some(text)
  {
    StripIsKept(text);
    UpperIsKept(text);
  }

  lemma ProposedTypeTexts(dcto: string, value: string)
    ensures var raw := ProposedType(dcto, value);
            ConfigItems.ActionOf(raw) == Some(Add) && ConfigItems.TableOf(raw) == Some("F40039")
  {
    var raw := ProposedType(dcto, value);
    assert "action"[0] != "table"[0];
    TextIsKept(raw, "action", "ADD");
    TextIsKept(raw, "table", "F40039");
  }

  lemma FieldsApart(dcto: string, value: string)
    ensures ConfigItems.Apart([("DCTO", dcto)], [("XXDCTO", value)])
  {
    AliasIsKept("DCTO");
    AliasIsKept("XXDCTO");
    assert |"DCTO"| != |"XXDCTO"|;
  }

  lemma ProposedTypeFields(dcto: string, value: string)
    requires |dcto| <= 200 && |value| <= 200
    ensures var key, values := [("DCTO", dcto)], [("XXDCTO", value)];
            && ConfigItems.FieldsAccepted(key, None, 6) && ConfigItems.FieldsAccepted(values, None, 30)
            && ConfigItems.Apart(key, values)
  {
    OneIsAccepted("DCTO", dcto, 6);
    OneIsAccepted("XXDCTO", value, 30);
    FieldsApart(dcto, value);
  }

  /** It is accepted. */
  lemma TypeIsAccepted(dcto: string, value: string)
    requires |dcto| <= 200 && |value| <= 200
    ensures ConfigItems.RowAccepted(ProposedType(dcto, value))
  {
    ProposedTypeTexts(dcto, value);
    ProposedTypeFields(dcto, value);
  }

  /** And this item is its normal form. */
  lemma TypeIsNormal(dcto: string, value: string)
    ensures ConfigItems.RowHolds(ProposedType(dcto, value), AddedType(dcto, "XXDCTO", value))
  {
    ProposedTypeTexts(dcto, value);
    OneIsHeld("DCTO", dcto);
    OneIsHeld("XXDCTO", value);
  }

  lemma TypePairs(dcto: string, value: string)
    ensures FieldPairs(AddedType(dcto, "XXDCTO", value), DOCUMENT_TYPES) == [("DCTO", dcto), ("XXDCTO", value)]
    ensures ColumnPairs(AddedType(dcto, "XXDCTO", value), DOCUMENT_TYPES) == []
  {
  }

  /** On a revision form whose one control is for DCTO, both fields go there. */
  lemma BothGoThere(fields: Ids)
    requires fields == map["DCTO" := ["5"]]
    ensures FieldId(fields, "DCTO") == Done("5") && FieldId(fields, "XXDCTO") == Done("5")
  {
    assert "XXDCTO"[2..] == "DCTO" && |"XXDCTO"| != |"DCTO"|;
  }

  /** The accepted item is committed on that form, and its key control is left with the other value. */
  lemma KeyIsOverwritten(rev: Form, dcto: string, value: string)
    requires |dcto| <= 200 && |value| <= 200 && dcto != value
    requires rev.fields == map["DCTO" := ["5"]] && ButtonId(rev, "OK").Done?
    ensures var saving := SavingOf(rev, AddedType(dcto, "XXDCTO", value), DOCUMENT_TYPES);
            && saving.Done? && Resolves(rev.fields, "DCTO", "5")
            && Final(FieldSets(saving.value.actions), "5") == Some(value)
    ensures Clash(rev.fields, FieldPairs(AddedType(dcto, "XXDCTO", value), DOCUMENT_TYPES))
  {
    var content := AddedType(dcto, "XXDCTO", value);
    TypePairs(dcto, value);
    BothGoThere(rev.fields);
    CommitSets(rev, content, DOCUMENT_TYPES);
    var pairs := FieldPairs(content, DOCUMENT_TYPES);
    assert Resolved(rev.fields, pairs) == [("5", dcto), ("5", value)];
    assert pairs[0].1 != pairs[1].1 && Resolves(rev.fields, pairs[0].0, "5") && Resolves(rev.fields, pairs[1].0, "5");
  }

  const FIND_AND_ADD := [Control(Some("12"), "Find"), Control(Some("13"), "Add")]
  const ONLY_OK := [Control(Some("12"), "OK")]

  /** A server on which nothing else is out of the way: the Work With form with Find and Add until the way
      into the revision form is asked for, then that form, with OK. */
  const TWO_FORMS: Server :=
    trace => Answered(true, Some([if |trace| < 3 then ("P40040_W40040B", TypeForm(FIND_AND_ADD))
                                  else ("P40040_W40040A", TypeForm(ONLY_OK))]))

  const WORK_WITH_READ: Form := FormOf("P40040_W40040B", TypeForm(FIND_AND_ADD))
  const REVISION_READ: Form := FormOf("P40040_W40040A", TypeForm(ONLY_OK))

  lemma TwoFormsReply(trace: seq<Dispatch>)
    ensures Reply(TWO_FORMS, trace) == Done(if |trace| < 3 then WORK_WITH_READ else REVISION_READ)
  {
  }

  lemma WorkWithRead()
    ensures WORK_WITH_READ.name == "P40040_W40040B" && WORK_WITH_READ.rows == [] && WORK_WITH_READ.errors == []
    ensures WORK_WITH_READ.fields == map["DCTO" := ["5"]] && WORK_WITH_READ.columns == map["DCTO" := ["7"]]
    ensures ButtonId(WORK_WITH_READ, "Find") == Done("12") && ButtonId(WORK_WITH_READ, "Add") == Done("13")
  {
    TypeFormRead("P40040_W40040B", FIND_AND_ADD);
    TitlesRead();
    assert "find"[0] != "add"[0];
    TwoControls(FIND_AND_ADD[0], FIND_AND_ADD[1], "find");
    TwoControls(FIND_AND_ADD[0], FIND_AND_ADD[1], "add");
  }

  lemma RevisionRead()
    ensures REVISION_READ.name == "P40040_W40040A" && REVISION_READ.errors == []
    ensures REVISION_READ.fields == map["DCTO" := ["5"]] && ButtonId(REVISION_READ, "OK") == Done("12")
  {
    TypeFormRead("P40040_W40040A", ONLY_OK);
    TitlesRead();
    TitledHolds(ONLY_OK, "ok");
    assert ONLY_OK[..0] == [];
  }

  lemma RevisionName()
    ensures Oid("P40040_W40040A") == "W40040A" && EndsWith("P40040_W40040A", "_" + "W40040A")
  {
    OidOf("P40040", "W40040A");
    EndsWithRest("P40040", "_" + "W40040A");
    assert "P40040" + "_" + "W40040A" == "P40040_W40040A";
  }

  lemma WayIsAdd(ww: Form, content: Content, fm: FormMap)
    requires content.Row? && content.action == Add && ww.rows == [] && ButtonId(ww, "Add").Done?
    ensures WayOf(ww, content, fm) == Done(Execute(Oid(ww.name), [DoAction(ButtonId(ww, "Add").value)]))
  {
  }

  lemma TypeMoves(ww: Form, content: Content)
    requires content.Row? && content.action == Add && ww.rows == [] && ButtonId(ww, "Add").Done?
    requires Oid(ww.name) == "W40040B"
    ensures var way := WayOf(ww, content, DOCUMENT_TYPES);
            way.Done? && Sendable(way.value, FormsOf(DOCUMENT_TYPES))
  {
    WayIsAdd(ww, content, DOCUMENT_TYPES);
    SendsOn(Execute(Oid(ww.name), [DoAction(ButtonId(ww, "Add").value)]), DOCUMENT_TYPES);
  }

  lemma TypeSaves(rev: Form, content: Content)
    requires content.Row? && SavingOf(rev, content, DOCUMENT_TYPES).Done? && Oid(rev.name) == "W40040A"
    ensures Sendable(SavingOf(rev, content, DOCUMENT_TYPES).value, FormsOf(DOCUMENT_TYPES))
  {
    HeaderSelectsNothing(rev, content, DOCUMENT_TYPES);
    SendsOn(SavingOf(rev, content, DOCUMENT_TYPES).value, DOCUMENT_TYPES);
  }

  ghost predicate AnswersWith(server: Server, ww: Form, rev: Form) {
    forall trace :: Reply(server, trace) == Done(if |trace| < 3 then ww else rev)
  }

  predicate CanSend(request: Result<Request>, fm: FormMap) {
    request.Done? && Sendable(request.value, FormsOf(fm))
  }

  lemma SearchGoesOn(server: Server, content: Content, fm: FormMap, trace: seq<Dispatch>, ww: Form, found: Form)
    requires content.Row? && CanSend(QueryOf(ww, content, fm), fm) && found.errors == []
    requires Reply(server, trace + [Dispatch(QueryOf(ww, content, fm).value, Some(ww))]) == Done(found)
    ensures FromOpen(server, content, fm, trace, ww)
         == FromSearch(server, content, fm, trace + [Dispatch(QueryOf(ww, content, fm).value, Some(ww))], found)
  {
  }

  lemma EntryGoesOn(server: Server, content: Content, fm: FormMap, trace: seq<Dispatch>, ww: Form, rev: Form)
    requires content.Row? && CanSend(WayOf(ww, content, fm), fm)
    requires rev.errors == [] && EndsWith(rev.name, "_" + fm.revision)
    requires Reply(server, trace + [Dispatch(WayOf(ww, content, fm).value, Some(ww))]) == Done(rev)
    ensures FromSearch(server, content, fm, trace, ww)
         == FromRevision(server, content, fm, trace + [Dispatch(WayOf(ww, content, fm).value, Some(ww))], rev)
  {
  }

  /** The item was handed over from this form, with the fourth request. */
  predicate Committed(c: Course, content: Content, fm: FormMap, rev: Form)
    requires content.Row?
  {
    && c.result.Done? && |c.trace| == 4
    && c.trace[3].on == Some(rev) && SavingOf(rev, content, fm) == Done(c.trace[3].request)
  }

  lemma CommitIsSent(server: Server, content: Content, fm: FormMap, trace: seq<Dispatch>, rev: Form)
    requires content.Row? && CanSend(SavingOf(rev, content, fm), fm) && |trace| == 3
    ensures Committed(FromRevision(server, content, fm, trace, rev), content, fm, rev)
  {
  }

  /** Every request of this item can be sent, and the forms report no error. */
  predicate CanGo(content: Content, fm: FormMap, ww: Form, rev: Form)
    requires content.Row?
  {
    && ww.errors == [] && rev.errors == [] && EndsWith(rev.name, "_" + fm.revision)
    && CanSend(QueryOf(ww, content, fm), fm) && CanSend(WayOf(ww, content, fm), fm) && CanSend(SavingOf(rev, content, fm), fm)
  }

  lemma EntryCommits(server: Server, content: Content, fm: FormMap, trace: seq<Dispatch>, ww: Form, rev: Form)
    requires content.Row? && CanGo(content, fm, ww, rev) && |trace| == 2
    requires Reply(server, trace + [Dispatch(WayOf(ww, content, fm).value, Some(ww))]) == Done(rev)
    ensures Committed(FromSearch(server, content, fm, trace, ww), content, fm, rev)
  {
    EntryGoesOn(server, content, fm, trace, ww, rev);
    CommitIsSent(server, content, fm, trace + [Dispatch(WayOf(ww, content, fm).value, Some(ww))], rev);
  }

  lemma SearchCommits(server: Server, content: Content, fm: FormMap, trace: seq<Dispatch>, ww: Form, rev: Form)
    requires content.Row? && CanSend(QueryOf(ww, content, fm), fm) && ww.errors == []
    requires var asked := trace + [Dispatch(QueryOf(ww, content, fm).value, Some(ww))];
             Reply(server, asked) == Done(ww) && Committed(FromSearch(server, content, fm, asked, ww), content, fm, rev)
    ensures Committed(FromOpen(server, content, fm, trace, ww), content, fm, rev)
  {
    SearchGoesOn(server, content, fm, trace, ww, ww);
  }

  lemma OpenedCommits(server: Server, content: Content, fm: FormMap, ww: Form, rev: Form)
    requires content.Row? && Reply(server, [Opening(fm)]) == Done(ww)
    requires Committed(FromOpen(server, content, fm, [Opening(fm)], ww), content, fm, rev)
    ensures Committed(Driven(server, content, fm), content, fm, rev)
  {
  }

  lemma Answers(server: Server, ww: Form, rev: Form, trace: seq<Dispatch>)
    requires AnswersWith(server, ww, rev)
    ensures Reply(server, trace) == Done(if |trace| < 3 then ww else rev)
  {
  }

  /** A session that meets these two forms commits the item on the second. */
  lemma GoesThrough(server: Server, content: Content, fm: FormMap, ww: Form, rev: Form)
    requires content.Row? && CanGo(content, fm, ww, rev) && AnswersWith(server, ww, rev)
    ensures Committed(Driven(server, content, fm), content, fm, rev)
  {
    var first := [Opening(fm)];
    var asked := first + [Dispatch(QueryOf(ww, content, fm).value, Some(ww))];
    var entered := asked + [Dispatch(WayOf(ww, content, fm).value, Some(ww))];
    assert Committed(FromOpen(server, content, fm, first, ww), content, fm, rev) by {
      assert Committed(FromSearch(server, content, fm, asked, ww), content, fm, rev) by {
        Answers(server, ww, rev, entered);
        EntryCommits(server, content, fm, asked, ww, rev);
      }
      Answers(server, ww, rev, asked);
      SearchCommits(server, content, fm, first, ww, rev);
    }
    Answers(server, ww, rev, first);
    OpenedCommits(server, content, fm, ww, rev);
  }

  lemma AppliedAsDriven(server: Server, content: Content, driven: Course)
    requires FormMapFor(content).Some? && driven == Driven(server, content, FormMapFor(content).value)
    requires driven.result.Done?
    ensures var c := Applied(server, Connected, content);
            c.result == driven.result && driven.trace <= c.trace
  {
  }

  lemma TypeCanGo(dcto: string, value: string)
    requires |dcto| <= 200 && |value| <= 200 && dcto != value
    ensures CanGo(AddedType(dcto, "XXDCTO", value), DOCUMENT_TYPES, WORK_WITH_READ, REVISION_READ)
  {
    var content := AddedType(dcto, "XXDCTO", value);
    WorkWithRead();
    OneFormName();
    TypeQuery(WORK_WITH_READ, content);
    TypeSends(WORK_WITH_READ, content);
    TypeMoves(WORK_WITH_READ, content);
    RevisionRead();
    RevisionName();
    KeyIsOverwritten(REVISION_READ, dcto, value);
    TypeSaves(REVISION_READ, content);
  }

  lemma TwoFormsGoThrough(dcto: string, value: string)
    requires |dcto| <= 200 && |value| <= 200 && dcto != value
    ensures var content := AddedType(dcto, "XXDCTO", value);
            Committed(Driven(TWO_FORMS, content, DOCUMENT_TYPES), content, DOCUMENT_TYPES, REVISION_READ)
  {
    forall trace ensures Reply(TWO_FORMS, trace) == Done(if |trace| < 3 then WORK_WITH_READ else REVISION_READ) {
      TwoFormsReply(trace);
    }
    TypeCanGo(dcto, value);
    GoesThrough(TWO_FORMS, AddedType(dcto, "XXDCTO", value), DOCUMENT_TYPES, WORK_WITH_READ, REVISION_READ);
  }

  /** The fourth request puts the other value into the control that answers to the key. */
  ghost predicate Overwrites(trace: seq<Dispatch>, value: string) {
    && |trace| >= 4 && trace[3].on.Some? && Resolves(trace[3].on.value.fields, "DCTO", "5")
    && Final(FieldSets(ActionsOf(trace[3].request)), "5") == Some(value)
  }

  lemma CommittedOverwrites(c: Course, rev: Form, dcto: string, value: string)
    requires |dcto| <= 200 && |value| <= 200 && dcto != value
    requires rev.fields == map["DCTO" := ["5"]] && ButtonId(rev, "OK").Done?
    requires Committed(c, AddedType(dcto, "XXDCTO", value), DOCUMENT_TYPES, rev)
    ensures Overwrites(c.trace, value)
  {
    KeyIsOverwritten(rev, dcto, value);
  }

  /** The item is reported as sent by this server, and the request that committed it left the key's control with
      the other value. */
  lemma OverwrittenWhenApplied(dcto: string, value: string)
    requires |dcto| <= 200 && |value| <= 200 && dcto != value
    ensures var c := Applied(TWO_FORMS, Connected, AddedType(dcto, "XXDCTO", value));
            c.result.Done? && Overwrites(c.trace, value)
  {
    AddedTypeIsMapped(dcto, "XXDCTO", value);
    TwoFormsGoThrough(dcto, value);
    var driven := Driven(TWO_FORMS, AddedType(dcto, "XXDCTO", value), DOCUMENT_TYPES);
    RevisionRead();
    CommittedOverwrites(driven, REVISION_READ, dcto, value);
    AppliedAsDriven(TWO_FORMS, AddedType(dcto, "XXDCTO", value), driven);
  }

  // ---------------------------------------------------------------------------------------------
  // One row, two targets
  // ---------------------------------------------------------------------------------------------

  /** Two items for one document type, as every form shows it: both mapped, both normalised, and their targets
      differ by a space. */
  lemma OneTypeTwoTargets(row: GridRow)
    ensures var a, b := AddedType("S1", "XX", "V"), AddedType("S1 ", "XX", "V");
            && FormMapFor(a) == FormMapFor(b) == Some(DOCUMENT_TYPES)
            && (RowMatches(row, a, DOCUMENT_TYPES) <==> RowMatches(row, b, DOCUMENT_TYPES))
            && Targets.TargetOf(ConfigItems.SetupKind, a) != Targets.TargetOf(ConfigItems.SetupKind, b)
  {
    var a, b := AddedType("S1", "XX", "V"), AddedType("S1 ", "XX", "V");
    AddedTypeIsMapped("S1", "XX", "V");
    AddedTypeIsMapped("S1 ", "XX", "V");
    SpaceIsAlike("XX", "V");
    Targets.AlikeRowsAreOne(row, a, b, DOCUMENT_TYPES);
    SpaceIsTold("XX", "V");
  }

  lemma SpaceIsTold(alias: string, value: string)
    requires ConfigItems.IsAlias(alias) && alias != "DCTO"
    ensures Targets.TargetOf(ConfigItems.SetupKind, AddedType("S1", alias, value))
            != Targets.TargetOf(ConfigItems.SetupKind, AddedType("S1 ", alias, value))
  {
    var a, b := AddedType("S1", alias, value), AddedType("S1 ", alias, value);
    SpaceIsAlike(alias, value);
    TypeIsWellFormed("S1", alias, value);
    TypeIsWellFormed("S1 ", alias, value);
    assert |"S1"| != |"S1 "|;
    assert ("DCTO", "S1") in a.key && ("DCTO", "S1") !in b.key;
    Targets.AlikeTargetsExactly(ConfigItems.SetupKind, a, ConfigItems.SetupKind, b);
  }

  lemma TypeIsWellFormed(dcto: string, alias: string, value: string)
    requires ConfigItems.IsAlias(alias) && alias != "DCTO"
    ensures ConfigItems.WellFormed(ConfigItems.SetupKind, AddedType(dcto, alias, value))
  {
  }

  lemma SpaceIsAlike(alias: string, value: string)
    ensures Targets.Alike(AddedType("S1", alias, value), AddedType("S1 ", alias, value))
  {
    StripIsKept("S1");
    assert "S1 "[..2] == "S1";
    assert Texts.StripLeft("S1 ") == "S1 " && Texts.StripRight("S1 ") == Texts.StripRight("S1");
    assert Names([("DCTO", "S1")]) == {"DCTO"} == Names([("DCTO", "S1 ")]);
  }
}
