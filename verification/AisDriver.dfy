/** The form driver: one session that applies one item through forms an untrusted server returns. The
    server is any function from what it was sent to an answer; everything below holds for every one. */
module AisDriver {
  import opened Wrappers
  import opened Changes
  import opened AisForms
  import opened AisGuard
  import opened AisPlan

  type Server = seq<Dispatch> -> Answer

  /** Whether the commit's answer was clean; the read-back decides what it did. */
  datatype Outcome = Outcome(clean: bool, errors: seq<string>)

  // ---------------------------------------------------------------------------------------------
  // The course of a session
  // ---------------------------------------------------------------------------------------------

  /** How the session ended, and every request it handed to the transport. */
  datatype Course = Course(result: Result<Outcome>, trace: seq<Dispatch>)

  /** What the last of these requests brings back. */
  function Reply(server: Server, trace: seq<Dispatch>): Result<Form> {
    match server(trace)
    case Raised => Stopped(Broken)
    case Answered(_, None) => Stopped(Broken)
    case Answered(_, Some(forms)) => Parsed(forms)
  }

  /** 3 and 4. The commit, from the revision form. Once it is handed over, whatever comes back -- an answer,
      an unreadable one, an exception -- the outcome is that it was sent. */
  function FromRevision(server: Server, content: Content, fm: FormMap, trace: seq<Dispatch>, rev: Form): Course
    requires content.Row?
  {
    match SavingOf(rev, content, fm)
    case Stopped(why) => Course(Stopped(why), trace)
    case Done(request) =>
      if !Sendable(request, FormsOf(fm)) then Course(Stopped(NotAWrite), trace)
      else
        var sent := trace + [Dispatch(request, Some(rev))];
        var after := Reply(server, sent);
        Course(Done(if after.Done? then Outcome(true, after.value.errors) else Outcome(false, [])), sent)
  }

  /** 2. Into the revision form, from the form that answered the search. */
  function FromSearch(server: Server, content: Content, fm: FormMap, trace: seq<Dispatch>, ww: Form): Course
    requires content.Row?
  {
    match WayOf(ww, content, fm)
    case Stopped(why) => Course(Stopped(why), trace)
    case Done(request) =>
      if !Sendable(request, FormsOf(fm)) then Course(Stopped(NotAWrite), trace)
      else
        var sent := trace + [Dispatch(request, Some(ww))];
        var rev := Reply(server, sent);
        if rev.Stopped? then Course(Stopped(rev.why), sent)
        else if rev.value.errors != [] || !EndsWith(rev.value.name, "_" + fm.revision) then Course(Stopped(NotSent), sent)
        else FromRevision(server, content, fm, sent, rev.value)
  }

  /** 1. The search, from the form that was opened. */
  function FromOpen(server: Server, content: Content, fm: FormMap, trace: seq<Dispatch>, ww: Form): Course
    requires content.Row?
  {
    match QueryOf(ww, content, fm)
    case Stopped(why) => Course(Stopped(why), trace)
    case Done(request) =>
      if !Sendable(request, FormsOf(fm)) then Course(Stopped(NotAWrite), trace)
      else
        var sent := trace + [Dispatch(request, Some(ww))];
        var found := Reply(server, sent);
        if found.Stopped? then Course(Stopped(found.why), sent)
        else if found.value.errors != [] then Course(Stopped(NotSent), sent)
        else FromSearch(server, content, fm, sent, found.value)
  }

  function Opening(fm: FormMap): Dispatch {
    Dispatch(Open(WorkWithForm(fm), "R", []), None)
  }

  function Driven(server: Server, content: Content, fm: FormMap): Course
    requires content.Row?
  {
    var first := Reply(server, [Opening(fm)]);
    if first.Stopped? then Course(Stopped(first.why), [Opening(fm)])
    else FromOpen(server, content, fm, [Opening(fm)], first.value)
  }

  /** Some answer named a stack. */
  predicate NamedStack(server: Server, trace: seq<Dispatch>) {
    trace != [] && ((server(trace).Answered? && server(trace).stack) || NamedStack(server, trace[..|trace| - 1]))
  }

  /** The trace after the session left its stack. */
  function Left(server: Server, trace: seq<Dispatch>): seq<Dispatch> {
    if NamedStack(server, trace) then trace + [Dispatch(Close, None)] else trace
  }

  /** How opening the session went, before any form was opened. */
  datatype Connection = Connected | Refused | Failed

  /** An open session: whatever went wrong before the commit is reported as not sent, and the stack is left
      in any case. */
  function InSession(server: Server, content: Content, fm: FormMap): Course
    requires content.Row?
  {
    var c := Driven(server, content, fm);
    Course(if c.result == Stopped(Broken) then Stopped(NotSent) else c.result, Left(server, c.trace))
  }

  /** The whole item: nothing without a map and a connection. */
  function Applied(server: Server, connection: Connection, content: Content): Course {
    var fm := FormMapFor(content);
    if fm.None? || connection == Refused then Course(Stopped(NotSent), [])
    else if connection == Failed then Course(Stopped(Broken), [])
    else InSession(server, content, fm.value)
  }

  // ---------------------------------------------------------------------------------------------
  // The session
  // ---------------------------------------------------------------------------------------------

  class Stack {
    const server: Server
    const forms: set<string>
    var onStack: bool
    var allowedFields: set<string>
    var allowedButtons: set<string>
    var committing: bool
    var trace: seq<Dispatch>

    ghost predicate Valid()
      reads this
    {
      onStack == NamedStack(server, trace)
    }

    constructor (server: Server, fm: FormMap)
      ensures Valid() && this.server == server && forms == FormsOf(fm)
      ensures trace == [] && !committing
    {
      this.server, forms := server, FormsOf(fm);
      onStack, allowedFields, allowedButtons, committing, trace := false, {}, {}, false, [];
    }

    /** One guarded request. A request the guard refuses never reaches the transport; any other is
        handed over before anything can go wrong with its answer. */
    method Send(request: Request, on: Option<Form>) returns (r: Result<Form>)
      requires Valid()
      modifies this`trace, this`onStack
      ensures Valid()
      ensures Guard(request, allowedFields, allowedButtons, forms) ==>
                trace == old(trace) + [Dispatch(request, on)] && r == Reply(server, trace)
      ensures !Guard(request, allowedFields, allowedButtons, forms) ==> trace == old(trace) && r == Stopped(NotAWrite)
    {
      if !Guard(request, allowedFields, allowedButtons, forms) {
        return Stopped(NotAWrite);
      }
      trace := trace + [Dispatch(request, on)];
      assert trace[..|trace| - 1] == old(trace);
      var answer := server(trace);
      if answer.Raised? {
        return Stopped(Broken);
      }
      onStack := onStack || answer.stack;
      if answer.forms.None? {
        return Stopped(Broken);
      }
      r := ParseForm(answer.forms.value);
    }

    method Field(form: Form, alias: string) returns (r: Result<string>)
      modifies this`allowedFields
      ensures r == FieldId(form.fields, alias)
      ensures allowedFields == old(allowedFields) + (if r.Done? then {r.value} else {})
    {
      r := FieldId(form.fields, alias);
      if r.Done? {
        allowedFields := allowedFields + {r.value};
      }
    }

    method Column(form: Form, alias: string) returns (r: Result<string>)
      modifies this`allowedFields
      ensures r == FieldId(form.columns, alias)
      ensures allowedFields == old(allowedFields) + (if r.Done? then {"g" + r.value} else {})
    {
      r := FieldId(form.columns, alias);
      if r.Done? {
        allowedFields := allowedFields + {"g" + r.value};
      }
    }

    method Qbe(form: Form, alias: string) returns (r: Result<string>)
      modifies this`allowedFields
      ensures r == FieldId(form.columns, alias)
      ensures allowedFields == old(allowedFields) + (if r.Done? then {QbeId(r.value)} else {})
    {
      r := FieldId(form.columns, alias);
      if r.Done? {
        allowedFields := allowedFields + {QbeId(r.value)};
      }
    }

    method Button(form: Form, title: string) returns (r: Result<string>)
      modifies this`allowedButtons
      ensures r == ButtonId(form, title)
      ensures allowedButtons == old(allowedButtons) + (if r.Done? then {r.value} else {})
    {
      r := ButtonId(form, title);
      if r.Done? {
        allowedButtons := allowedButtons + {r.value};
      }
    }

    /** Sets the given aliases of a form, in order. */
    method SetFields(form: Form, pairs: Fields) returns (r: Result<seq<Action>>)
      modifies this`allowedFields
      ensures r == if AllResolve(form.fields, pairs) then Done(Sets(Resolved(form.fields, pairs))) else Stopped(NotSent)
      ensures old(allowedFields) <= allowedFields
      ensures r.Done? ==> forall a :: a in r.value ==> a.SetControl? && a.id in allowedFields
    {
      var actions: seq<Action> := [];
      for i := 0 to |pairs|
        invariant |actions| == i && forall j :: 0 <= j < i ==>
                    FieldId(form.fields, pairs[j].0).Done?
                    && actions[j] == SetControl(FieldId(form.fields, pairs[j].0).value, pairs[j].1)
        invariant old(allowedFields) <= allowedFields && forall a :: a in actions ==> a.SetControl? && a.id in allowedFields
      {
        var cid := Field(form, pairs[i].0);
        if cid.Stopped? {
          return Stopped(NotSent);
        }
        actions := actions + [SetControl(cid.value, pairs[i].1)];
      }
      assert actions == Sets(Resolved(form.fields, pairs));
      return Done(actions);
    }

    method SetColumns(form: Form, pairs: Fields) returns (r: Result<Fields>)
      modifies this`allowedFields
      ensures r == if AllResolve(form.columns, pairs) then Done(Resolved(form.columns, pairs)) else Stopped(NotSent)
      ensures old(allowedFields) <= allowedFields
      ensures r.Done? ==> EventsAllowed(r.value, allowedFields)
    {
      var events: Fields := [];
      for i := 0 to |pairs|
        invariant |events| == i && forall j :: 0 <= j < i ==>
                    FieldId(form.columns, pairs[j].0).Done?
                    && events[j] == (FieldId(form.columns, pairs[j].0).value, pairs[j].1)
        invariant old(allowedFields) <= allowedFields && EventsAllowed(events, allowedFields)
      {
        var cid := Column(form, pairs[i].0);
        if cid.Stopped? {
          return Stopped(NotSent);
        }
        events := events + [(cid.value, pairs[i].1)];
      }
      assert events == Resolved(form.columns, pairs);
      return Done(events);
    }

    method SetQbes(form: Form, pairs: Fields) returns (r: Result<seq<Action>>)
      modifies this`allowedFields
      ensures r == if AllResolve(form.columns, pairs) then Done(Qbes(Resolved(form.columns, pairs))) else Stopped(NotSent)
      ensures old(allowedFields) <= allowedFields
      ensures r.Done? ==> forall a :: a in r.value ==> a.SetQbe? && a.id in allowedFields
    {
      var actions: seq<Action> := [];
      for i := 0 to |pairs|
        invariant |actions| == i && forall j :: 0 <= j < i ==>
                    FieldId(form.columns, pairs[j].0).Done?
                    && actions[j] == SetQbe(QbeId(FieldId(form.columns, pairs[j].0).value), pairs[j].1)
        invariant old(allowedFields) <= allowedFields && forall a :: a in actions ==> a.SetQbe? && a.id in allowedFields
      {
        var cid := Qbe(form, pairs[i].0);
        if cid.Stopped? {
          return Stopped(NotSent);
        }
        actions := actions + [SetQbe(QbeId(cid.value), pairs[i].1)];
      }
      assert actions == Qbes(Resolved(form.columns, pairs));
      return Done(actions);
    }

    /** Leaves the stack; the answer no longer matters. */
    method CloseStack()
      requires Valid()
      modifies this`trace
      ensures trace == Left(server, old(trace))
    {
      if onStack {
        trace := trace + [Dispatch(Close, None)];
      }
    }
  }

  // ---------------------------------------------------------------------------------------------
  // Applying one item
  // ---------------------------------------------------------------------------------------------

  method Query(stack: Stack, ww: Form, content: Content, fm: FormMap) returns (r: Result<Request>)
    requires content.Row?
    modifies stack`allowedFields, stack`allowedButtons
    ensures r == QueryOf(ww, content, fm)
    ensures r.Done? ==> Granted(r.value, stack.allowedFields, stack.allowedButtons)
  {
    var actions :- stack.SetFields(ww, KeyPairs(fm, content.key, fm.header));
    var filters :- stack.SetQbes(ww, FilterPairs(content, fm));
    var find :- stack.Button(ww, "Find");
    forall a | a in actions + filters + [DoAction(find)]
      ensures ActionAllowed(a, stack.allowedFields, stack.allowedButtons)
    {
      assert a in actions || a in filters || a == DoAction(find);
    }
    return Done(Execute(Oid(ww.name), actions + filters + [DoAction(find)]));
  }

  /** 1. The Work With form, opened read-only, and the search in it. */
  method Search(stack: Stack, content: Content, fm: FormMap) returns (r: Result<Form>)
    requires stack.Valid() && content.Row? && stack.trace == [] && stack.forms == FormsOf(fm)
    modifies stack`trace, stack`onStack, stack`allowedFields, stack`allowedButtons
    ensures stack.Valid()
    ensures Driven(stack.server, content, fm) ==
              if r.Stopped? then Course(Stopped(r.why), stack.trace)
              else FromSearch(stack.server, content, fm, stack.trace, r.value)
  {
    assert [] + [Opening(fm)] == [Opening(fm)];
    var ww :- stack.Send(Open(WorkWithForm(fm), "R", []), None);
    var request :- Query(stack, ww, content, fm);
    GuardOfGranted(request, stack.allowedFields, stack.allowedButtons, stack.forms);
    var found :- stack.Send(request, Some(ww));
    if found.errors != [] {
      return Stopped(NotSent);
    }
    return Done(found);
  }

  method Way(stack: Stack, ww: Form, content: Content, fm: FormMap) returns (r: Result<Request>)
    requires content.Row?
    modifies stack`allowedButtons
    ensures r == WayOf(ww, content, fm)
    ensures r.Done? ==> Granted(r.value, stack.allowedFields, stack.allowedButtons)
  {
    var matching := Matching(ww.rows, content, fm);
    if content.action == Add {
      if matching != [] {
        return Stopped(NotSent);
      }
      var add :- stack.Button(ww, "Add");
      return Done(Execute(Oid(ww.name), [DoAction(add)]));
    }
    if |matching| != 1 {
      return Stopped(NotSent);
    }
    var select :- stack.Button(ww, "Select");
    return Done(Execute(Oid(ww.name), [SelectRow("1." + matching[0].index), DoAction(select)]));
  }

  /** 2. Into the revision form: Add for a new row, Select for the existing one. */
  method Enter(stack: Stack, ww: Form, content: Content, fm: FormMap) returns (r: Result<Form>)
    requires stack.Valid() && content.Row? && stack.forms == FormsOf(fm)
    modifies stack`trace, stack`onStack, stack`allowedButtons
    ensures stack.Valid()
    ensures FromSearch(stack.server, content, fm, old(stack.trace), ww) ==
              if r.Stopped? then Course(Stopped(r.why), stack.trace)
              else FromRevision(stack.server, content, fm, stack.trace, r.value)
  {
    var request :- Way(stack, ww, content, fm);
    GuardOfGranted(request, stack.allowedFields, stack.allowedButtons, stack.forms);
    var rev :- stack.Send(request, Some(ww));
    if rev.errors != [] || !EndsWith(rev.name, "_" + fm.revision) {
      return Stopped(NotSent);
    }
    return Done(rev);
  }

  /** 3. The approved values, on exactly the item's row. */
  method Fill(stack: Stack, rev: Form, content: Content, fm: FormMap) returns (r: Result<seq<Action>>)
    requires content.Row?
    modifies stack`allowedFields
    ensures r.Done? <==> AllResolve(rev.fields, FieldPairs(content, fm)) && AllResolve(rev.columns, ColumnPairs(content, fm))
                         && OnTheRow(rev, content, fm)
    ensures r.Done? ==> r.value == Front(rev, content, fm)
    ensures r.Done? ==> forall a :: a in r.value ==> ActionAllowed(a, stack.allowedFields, stack.allowedButtons)
    ensures r.Stopped? ==> r.why == NotSent
  {
    if fm.layout == Header && content.action == Update {
      for i := 0 to |fm.key|
        invariant forall j :: 0 <= j < i ==> ShowsKey(rev, content, fm.key[j])
      {
        if !ShowsKey(rev, content, fm.key[i]) {
          return Stopped(NotSent);
        }
      }
    }
    var sets :- stack.SetFields(rev, FieldPairs(content, fm));
    var events :- stack.SetColumns(rev, ColumnPairs(content, fm));
    if fm.layout == Header {
      assert sets + [] == sets;
      return Done(sets);
    }
    if content.action == Add {
      return Done(sets + [InsertRow(events)]);
    }
    var rows := Matching(rev.rows, content, fm);
    if |rows| != 1 {
      return Stopped(NotSent);
    }
    return Done(sets + [UpdateRow(rows[0].index, events)]);
  }

  /** 3 and 4. The approved values and the commit, checked by the guard before it is marked as such. */
  method Commit(stack: Stack, rev: Form, content: Content, fm: FormMap) returns (r: Result<Outcome>)
    requires stack.Valid() && content.Row? && stack.forms == FormsOf(fm) && !stack.committing
    modifies stack
    ensures stack.Valid()
    ensures FromRevision(stack.server, content, fm, old(stack.trace), rev) == Course(r, stack.trace)
    ensures r == Stopped(Broken) ==> !stack.committing
  {
    var actions :- Fill(stack, rev, content, fm);
    var ok :- stack.Button(rev, "OK");
    var request := Execute(Oid(rev.name), actions + [DoAction(ok)]);
    assert SavingOf(rev, content, fm) == Done(request);
    assert Granted(request, stack.allowedFields, stack.allowedButtons);
    GuardOfGranted(request, stack.allowedFields, stack.allowedButtons, stack.forms);
    if !Guard(request, stack.allowedFields, stack.allowedButtons, stack.forms) {
      return Stopped(NotAWrite);
    }
    stack.committing := true;
    var after := stack.Send(request, Some(rev));
    match after
    case Done(form) => return Done(Outcome(true, form.errors));
    case Stopped(why) =>
      if why == NotAWrite {
        return Stopped(NotAWrite);
      }
      return Done(Outcome(false, []));
  }

  method Drive(stack: Stack, content: Content, fm: FormMap) returns (r: Result<Outcome>)
    requires stack.Valid() && content.Row? && stack.trace == [] && stack.forms == FormsOf(fm) && !stack.committing
    modifies stack
    ensures stack.Valid() && Driven(stack.server, content, fm) == Course(r, stack.trace)
    ensures r == Stopped(Broken) ==> !stack.committing
  {
    var ww :- Search(stack, content, fm);
    var rev :- Enter(stack, ww, content, fm);
    r := Commit(stack, rev, content, fm);
  }

  /** Drives the configuration application for exactly this item, against any server. */
  method ApplyItem(server: Server, connection: Connection, content: Content)
    returns (r: Result<Outcome>, trace: seq<Dispatch>)
    ensures Course(r, trace) == Applied(server, connection, content)
  {
    var fm := FormMapFor(content);
    if fm.None? {
      return Stopped(NotSent), [];
    }
    match connection {
      case Refused => return Stopped(NotSent), [];
      case Failed => return Stopped(Broken), [];
      case Connected =>
    }
    var stack := new Stack(server, fm.value);
    r := Drive(stack, content, fm.value);
    if r == Stopped(Broken) && !stack.committing {
      r := Stopped(NotSent);
    }
    stack.CloseStack();
    trace := stack.trace;
  }

  // ---------------------------------------------------------------------------------------------
  // What can and cannot have been sent
  // ---------------------------------------------------------------------------------------------

  /** The requests before the commit, or as many of them as were made: the Work With form opened
      read-only, the search, and the way into the revision form. */
  ghost predicate Approach(trace: seq<Dispatch>, content: Content, fm: FormMap)
    requires content.Row?
  {
    && |trace| <= 3 && (forall k :: 0 <= k < |trace| ==> Navigates(trace[k]))
    && (|trace| > 0 ==> trace[0] == Opening(fm))
    && (|trace| > 1 ==> Searches(trace[1], content, fm))
    && (|trace| > 2 ==> Enters(trace[2], content, fm))
  }

  /** Every request is for one of the item's forms, and one on a form was made on the form that the
      request before it brought back. */
  ghost predicate Genuine(server: Server, forms: set<string>, trace: seq<Dispatch>) {
    && (forall k :: 0 <= k < |trace| ==> OnForms(trace[k].request, forms))
    && (forall k :: 0 <= k < |trace| && trace[k].on.Some? ==> k > 0 && Reply(server, trace[..k]) == Done(trace[k].on.value))
  }

  lemma GenuineNext(server: Server, forms: set<string>, trace: seq<Dispatch>, d: Dispatch)
    requires Genuine(server, forms, trace) && OnForms(d.request, forms)
    requires d.on.Some? ==> trace != [] && Reply(server, trace) == Done(d.on.value)
    ensures Genuine(server, forms, trace + [d])
  {
    forall k | 0 <= k < |trace + [d]| && (trace + [d])[k].on.Some?
      ensures k > 0 && Reply(server, (trace + [d])[..k]) == Done((trace + [d])[k].on.value)
    {
      assert (trace + [d])[..k] == trace[..k];
      if k == |trace| {
        assert trace[..k] == trace;
      }
    }
  }

  lemma ApproachNext(trace: seq<Dispatch>, d: Dispatch, content: Content, fm: FormMap)
    requires content.Row? && Approach(trace, content, fm) && 0 < |trace| < 3 && Navigates(d)
    requires if |trace| == 1 then Searches(d, content, fm) else Enters(d, content, fm)
    ensures Approach(trace + [d], content, fm)
  {
  }

  /** Requests so far, and a form they brought back. */
  ghost predicate Under(server: Server, content: Content, fm: FormMap, trace: seq<Dispatch>, form: Form)
    requires content.Row?
  {
    Approach(trace, content, fm) && Genuine(server, FormsOf(fm), trace) && trace != [] && Reply(server, trace) == Done(form)
  }

  /** A finished course: done with the approach and the commit, or stopped on the approach. */
  ghost predicate Shaped(server: Server, content: Content, fm: FormMap, c: Course)
    requires content.Row?
  {
    && Genuine(server, FormsOf(fm), c.trace) && c.trace != []
    && (c.result.Stopped? ==> Approach(c.trace, content, fm))
    && (c.result.Done? ==> |c.trace| == 4 && Approach(c.trace[..3], content, fm) && Carries(c.trace[3], content, fm))
  }

  lemma RevisionShape(server: Server, content: Content, fm: FormMap, trace: seq<Dispatch>, rev: Form)
    requires content.Row? && WellMapped(fm) && Under(server, content, fm, trace, rev) && |trace| == 3
    requires EndsWith(rev.name, "_" + fm.revision)
    ensures Shaped(server, content, fm, FromRevision(server, content, fm, trace, rev))
  {
    var saving := SavingOf(rev, content, fm);
    if saving.Done? && Sendable(saving.value, FormsOf(fm)) {
      var d := Dispatch(saving.value, Some(rev));
      SavingCarries(rev, content, fm);
      GenuineNext(server, FormsOf(fm), trace, d);
      assert (trace + [d])[..3] == trace;
    }
  }

  lemma SearchShape(server: Server, content: Content, fm: FormMap, trace: seq<Dispatch>, ww: Form)
    requires content.Row? && WellMapped(fm) && Under(server, content, fm, trace, ww) && |trace| == 2
    ensures Shaped(server, content, fm, FromSearch(server, content, fm, trace, ww))
  {
    var way := WayOf(ww, content, fm);
    if way.Done? && Sendable(way.value, FormsOf(fm)) {
      var d := Dispatch(way.value, Some(ww));
      WayEnters(ww, content, fm);
      ApproachNext(trace, d, content, fm);
      GenuineNext(server, FormsOf(fm), trace, d);
      var rev := Reply(server, trace + [d]);
      if rev.Done? && rev.value.errors == [] && EndsWith(rev.value.name, "_" + fm.revision) {
        RevisionShape(server, content, fm, trace + [d], rev.value);
      }
    }
  }

  lemma OpenShape(server: Server, content: Content, fm: FormMap, trace: seq<Dispatch>, ww: Form)
    requires content.Row? && WellMapped(fm) && Under(server, content, fm, trace, ww) && |trace| == 1
    ensures Shaped(server, content, fm, FromOpen(server, content, fm, trace, ww))
  {
    var query := QueryOf(ww, content, fm);
    if query.Done? && Sendable(query.value, FormsOf(fm)) {
      var d := Dispatch(query.value, Some(ww));
      QuerySearches(ww, content, fm);
      ApproachNext(trace, d, content, fm);
      GenuineNext(server, FormsOf(fm), trace, d);
      var found := Reply(server, trace + [d]);
      if found.Done? && found.value.errors == [] {
        SearchShape(server, content, fm, trace + [d], found.value);
      }
    }
  }

  lemma DrivenShape(server: Server, content: Content, fm: FormMap)
    requires content.Row? && WellMapped(fm)
    ensures Shaped(server, content, fm, Driven(server, content, fm))
  {
    var ww := Reply(server, [Opening(fm)]);
    if ww.Done? {
      OpenShape(server, content, fm, [Opening(fm)], ww.value);
    }
  }

  /** The trace of an applied item: the approach, exactly one commit that carries the item, and at most the
      close of the stack after it. */
  ghost predicate AppliedTrace(trace: seq<Dispatch>, content: Content, fm: FormMap)
    requires content.Row?
  {
    AroundCommit(trace, content, fm) && Carries(trace[3], content, fm)
  }

  ghost predicate AroundCommit(trace: seq<Dispatch>, content: Content, fm: FormMap)
    requires content.Row?
  {
    && 4 <= |trace| <= 5 && Approach(trace[..3], content, fm)
    && (|trace| == 5 ==> trace[4] == Dispatch(Close, None))
  }

  /** The trace of an item that was stopped: the approach as far as it went, and at most the close of the
      stack. */
  ghost predicate StoppedOn(trace: seq<Dispatch>, content: Content, fm: FormMap)
    requires content.Row? && trace != []
  {
    || Approach(trace, content, fm)
    || (Approach(trace[..|trace| - 1], content, fm) && trace[|trace| - 1] == Dispatch(Close, None))
  }

  lemma ClosedAfterCommit(trace: seq<Dispatch>, content: Content, fm: FormMap)
    requires content.Row? && |trace| == 4 && Approach(trace[..3], content, fm) && Carries(trace[3], content, fm)
    ensures AppliedTrace(trace, content, fm) && AppliedTrace(trace + [Dispatch(Close, None)], content, fm)
  {
    assert (trace + [Dispatch(Close, None)])[..3] == trace[..3];
  }

  lemma ClosedAfterApproach(trace: seq<Dispatch>, content: Content, fm: FormMap)
    requires content.Row? && Approach(trace, content, fm)
    ensures StoppedOn(trace + [Dispatch(Close, None)], content, fm)
  {
    var closed := trace + [Dispatch(Close, None)];
    assert closed[..|closed| - 1] == trace;
  }

  /** The course with the close of the stack. */
  lemma LeftShape(server: Server, content: Content, fm: FormMap, c: Course)
    requires content.Row? && Shaped(server, content, fm, c)
    ensures c.result.Done? ==> AppliedTrace(Left(server, c.trace), content, fm)
    ensures c.result.Stopped? && Left(server, c.trace) != [] ==> StoppedOn(Left(server, c.trace), content, fm)
  {
    if c.result.Done? {
      ClosedAfterCommit(c.trace, content, fm);
    } else {
      ClosedAfterApproach(c.trace, content, fm);
    }
  }

  /** What an open session can have sent. Every request was made on the form the server answered last, on
      the item's own two forms. Unless the commit was handed to the transport nothing but the approach was,
      and the item is reported as not sent or not a write; once it was handed over the item is never
      reported so, and nothing but the close of the stack follows. */
  ghost predicate Sent(server: Server, content: Content, fm: FormMap, c: Course)
    requires content.Row?
  {
    && Genuine(server, FormsOf(fm), c.trace) && c.result != Stopped(Broken)
    && (c.result.Done? ==> AppliedTrace(c.trace, content, fm))
    && (c.result.Stopped? ==> c.trace != [] && StoppedOn(c.trace, content, fm))
  }

  lemma SessionShape(server: Server, content: Content, fm: FormMap)
    requires content.Row? && WellMapped(fm)
    ensures Sent(server, content, fm, InSession(server, content, fm))
  {
    var d := Driven(server, content, fm);
    DrivenShape(server, content, fm);
    LeftShape(server, content, fm, d);
    GenuineNext(server, FormsOf(fm), d.trace, Dispatch(Close, None));
  }

  /** For every server: without a map or a connection nothing is sent, and with both it is what an open
      session can send. */
  lemma WhatWasSent(server: Server, connection: Connection, content: Content)
    ensures var c, fm := Applied(server, connection, content), FormMapFor(content);
            if fm.Some? && connection == Connected then Sent(server, content, fm.value, c)
            else c == Course(Stopped(if fm.Some? && connection == Failed then Broken else NotSent), [])
  {
    MapsAreWell(content);
    var fm := FormMapFor(content);
    if fm.Some? {
      SessionShape(server, content, fm.value);
    }
  }

  // ---------------------------------------------------------------------------------------------
  // OK before the commit
  // ---------------------------------------------------------------------------------------------

  /** The title under which the driver presses a button in its second and third request. */
  function TitleAt(k: nat, content: Content): string
    requires content.Row?
  {
    if k == 1 then "find" else if content.action == Add then "add" else "select"
  }

  /** The form the k-th request was made on reports one control both under the title pressed there and as OK. */
  predicate SharedAt(trace: seq<Dispatch>, k: nat, content: Content)
    requires content.Row? && k < |trace|
  {
    1 <= k <= 2 && trace[k].on.Some? && SharesOk(trace[k].on.value, TitleAt(k, content))
  }

  lemma SearchPresses(d: Dispatch, content: Content, fm: FormMap)
    requires content.Row? && Searches(d, content, fm)
    ensures PressesOk(d) <==> SharesOk(d.on.value, "find")
  {
    PressIsOkExactly(d, "find");
  }

  lemma WayPresses(d: Dispatch, content: Content, fm: FormMap)
    requires content.Row? && Enters(d, content, fm)
    ensures PressesOk(d) <==> SharesOk(d.on.value, if content.action == Add then "add" else "select")
  {
    PressIsOkExactly(d, if content.action == Add then "add" else "select");
  }

  lemma ApproachPresses(trace: seq<Dispatch>, content: Content, fm: FormMap, k: nat)
    requires content.Row? && Approach(trace, content, fm) && k < |trace|
    ensures PressesOk(trace[k]) <==> SharedAt(trace, k, content)
  {
    if k == 1 {
      SearchPresses(trace[1], content, fm);
    } else if k == 2 {
      WayPresses(trace[2], content, fm);
    } else {
      assert ActionsOf(Opening(fm).request) == [];
    }
  }

  lemma BeginningPresses(trace: seq<Dispatch>, n: nat, content: Content, fm: FormMap, k: nat)
    requires content.Row? && k < n <= |trace| && Approach(trace[..n], content, fm)
    ensures PressesOk(trace[k]) <==> SharedAt(trace, k, content)
  {
    ApproachPresses(trace[..n], content, fm, k);
  }

  lemma ClosePresses(trace: seq<Dispatch>, content: Content, k: nat)
    requires content.Row? && k < |trace| && trace[k] == Dispatch(Close, None)
    ensures !PressesOk(trace[k]) && !SharedAt(trace, k, content)
  {
  }

  lemma StoppedPresses(trace: seq<Dispatch>, content: Content, fm: FormMap, k: nat)
    requires content.Row? && k < |trace| && StoppedOn(trace, content, fm)
    ensures PressesOk(trace[k]) <==> SharedAt(trace, k, content)
  {
    if Approach(trace, content, fm) {
      ApproachPresses(trace, content, fm, k);
    } else if k < |trace| - 1 {
      BeginningPresses(trace, |trace| - 1, content, fm, k);
    } else {
      ClosePresses(trace, content, k);
    }
  }

  lemma CommitPresses(d: Dispatch, content: Content, fm: FormMap)
    requires content.Row? && Carries(d, content, fm)
    ensures PressesOk(d)
  {
    assert PressesAs(d, d.request.actions[|d.request.actions| - 1].id, "ok");
  }

  lemma PressesBeforeCommit(trace: seq<Dispatch>, content: Content, fm: FormMap, k: nat)
    requires content.Row? && k < 3 && AroundCommit(trace, content, fm)
    ensures PressesOk(trace[k]) <==> SharedAt(trace, k, content)
  {
    BeginningPresses(trace, 3, content, fm, k);
  }

  lemma PressesAfterCommit(trace: seq<Dispatch>, content: Content, fm: FormMap, k: nat)
    requires content.Row? && 3 < k < |trace| && AroundCommit(trace, content, fm)
    ensures PressesOk(trace[k]) <==> SharedAt(trace, k, content)
  {
    ClosePresses(trace, content, k);
  }

  lemma AppliedCommits(trace: seq<Dispatch>, content: Content, fm: FormMap)
    requires content.Row? && AppliedTrace(trace, content, fm)
    ensures PressesOk(trace[3])
  {
    CommitPresses(trace[3], content, fm);
  }

  /** A request other than the commit presses OK if and only if it is the search or the way into the
      revision form, and the form it was made on -- the one the server answered last -- reports the control
      pressed there, under Find, Add or Select, as OK as well. For every server and every such request. */
  lemma OkIsPressedEarlyExactly(server: Server, connection: Connection, content: Content, k: nat)
    requires var c := Applied(server, connection, content); k < |c.trace| && !(c.result.Done? && k == 3)
    ensures content.Row? && (PressesOk(Applied(server, connection, content).trace[k])
                             <==> SharedAt(Applied(server, connection, content).trace, k, content))
  {
    WhatWasSent(server, connection, content);
    var c := Applied(server, connection, content);
    if c.result.Done? && k < 3 {
      PressesBeforeCommit(c.trace, content, FormMapFor(content).value, k);
    } else if c.result.Done? {
      PressesAfterCommit(c.trace, content, FormMapFor(content).value, k);
    } else {
      StoppedPresses(c.trace, content, FormMapFor(content).value, k);
    }
  }

  /** Where no form does that, a stopped item pressed OK nowhere, and an applied one exactly once, in the
      commit. */
  lemma OkIsPressedOnce(server: Server, connection: Connection, content: Content, k: nat)
    requires content.Row? && k < |Applied(server, connection, content).trace|
    requires var trace := Applied(server, connection, content).trace;
             forall i :: 0 <= i < |trace| ==> !SharedAt(trace, i, content)
    ensures var c := Applied(server, connection, content);
            PressesOk(c.trace[k]) <==> c.result.Done? && k == 3
  {
    WhatWasSent(server, connection, content);
    var c := Applied(server, connection, content);
    if c.result.Done? && k == 3 {
      AppliedCommits(c.trace, content, FormMapFor(content).value);
    } else {
      OkIsPressedEarlyExactly(server, connection, content, k);
    }
  }

  /** In terms of the answer: it reports exactly one control under the title, and the same one as OK. */
  lemma SharedIsReported(name: string, body: Body, title: string)
    ensures SharesOk(FormOf(name, body), title) <==>
              body.controls.Some? && |ControlsTitled(body.controls.value, title)| == 1
              && ControlsTitled(body.controls.value, title) == ControlsTitled(body.controls.value, "ok")
  {
    FormsHoldWhatIsReported(name, body, "", title);
    FormsHoldWhatIsReported(name, body, "", "ok");
  }

  /** A session that stops after the search. */
  lemma SearchStops(server: Server, content: Content, fm: FormMap, ww: Form)
    requires content.Row? && Reply(server, [Opening(fm)]) == Done(ww)
    requires QueryOf(ww, content, fm).Done? && Sendable(QueryOf(ww, content, fm).value, FormsOf(fm))
    requires var found := Reply(server, [Opening(fm), Dispatch(QueryOf(ww, content, fm).value, Some(ww))]);
             found.Done? && (found.value.errors != [] || WayOf(found.value, content, fm) == Stopped(NotSent))
    ensures Driven(server, content, fm) ==
              Course(Stopped(NotSent), [Opening(fm), Dispatch(QueryOf(ww, content, fm).value, Some(ww))])
  {
    var d := Dispatch(QueryOf(ww, content, fm).value, Some(ww));
    assert [Opening(fm)] + [d] == [Opening(fm), d];
  }

  /** Whenever the form that was opened reports Find and OK as one control, and what the search brings back
      has no way on, the item is reported as not sent although OK was pressed. */
  lemma StoppedAfterOk(server: Server, content: Content, ww: Form)
    requires FormMapFor(content).Some?
    requires var fm := FormMapFor(content).value;
             && Reply(server, [Opening(fm)]) == Done(ww) && SharesOk(ww, "find")
             && QueryOf(ww, content, fm).Done? && Sendable(QueryOf(ww, content, fm).value, FormsOf(fm))
             && var found := Reply(server, [Opening(fm), Dispatch(QueryOf(ww, content, fm).value, Some(ww))]);
                found.Done? && (found.value.errors != [] || WayOf(found.value, content, fm) == Stopped(NotSent))
    ensures var c := Applied(server, Connected, content);
            c.result == Stopped(NotSent) && |c.trace| >= 2 && PressesOk(c.trace[1])
  {
    var fm := FormMapFor(content).value;
    SearchStops(server, content, fm, ww);
    QuerySearches(ww, content, fm);
    SearchPresses(Dispatch(QueryOf(ww, content, fm).value, Some(ww)), content, fm);
  }
}
